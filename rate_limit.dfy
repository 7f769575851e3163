/** The "at least `delay` seconds between two requests" rule shared by the
    `rate_limited_request` decorator of backend/app.py and `get_news` of backend/news.py. */
module RateLimit {

  /** Seconds to sleep before a request when `elapsed` seconds have passed since the
      previous one: `delay - elapsed` while that is positive, otherwise none. */
  function Wait(elapsed: real, delay: real): (w: real)
    ensures w >= 0.0
    ensures w > 0.0 <==> elapsed < delay
    ensures elapsed + w >= delay
    ensures w > 0.0 ==> elapsed + w == delay
  {
    if elapsed < delay then delay - elapsed else 0.0
  }

  /** The state a `rate_limited_request(delay)` wrapper closes over. */
  class Throttle {
    const delay: real
    var lastRequestTime: real

    constructor(delay: real)
      ensures this.delay == delay && lastRequestTime == 0.0
    {
      this.delay := delay;
      lastRequestTime := 0.0;
    }

    /** One call through the wrapper. `now` is the clock at entry and `finishedAt` the
        clock once the wrapped call has returned; `returned` is false when it raised, in
        which case the exception propagates and the last request time stays as it was. */
    method Call(now: real, finishedAt: real, returned: bool) returns (wait: real)
      modifies this
      ensures wait == Wait(now - old(lastRequestTime), delay)
      ensures lastRequestTime == if returned then finishedAt else old(lastRequestTime)
    {
      var sinceLast := now - lastRequestTime;
      wait := 0.0;
      if sinceLast < delay {
        wait := delay - sinceLast;
      }
      if returned {
        lastRequestTime := finishedAt;
      }
    }
  }
}
