/** struct eio_req: the fields the queues and the groups work on. */
module Requests {
  import opened Bits

  const PRI_MIN: int := -4
  const PRI_MAX: int := 4
  const NUM_PRI: nat := 9

  class Request {
    var pri: int
    var next: Request?       // link within a queue

    const isGroup: bool      // type == EIO_GROUP
    const hasFinish: bool    // finish != 0
    var size: int            // for a group: the number of its members
    var int1: int            // for a group: 1 once it was polled while it had members
    var int2: int            // for a group: the feed limit
    var cancelled: bool      // EIO_FLAG_CANCELLED
    var groupAdd: bool       // EIO_FLAG_GROUPADD
    var hasFeed: bool        // feed != 0
    var grp: Request?
    var grpPrev: Request?
    var grpNext: Request?
    var grpFirst: Request?

    // calloc, then the type and the callbacks
    constructor (isGroup: bool, hasFinish: bool)
      ensures this.isGroup == isGroup && this.hasFinish == hasFinish
      ensures next == null && size == 0 && int1 == 0 && int2 == 0 && !cancelled && !groupAdd && !hasFeed
      ensures grp == null && grpPrev == null && grpNext == null && grpFirst == null
    {
      this.isGroup, this.hasFinish := isGroup, hasFinish;
      pri, size, int1, int2 := 0, 0, 0, 0;
      cancelled, groupAdd, hasFeed := false, false, false;
      next, grp, grpPrev, grpNext, grpFirst := null, null, null, null, null;
    }
  }

  /** The priority computation at the head of etp_submit; `pri` is a signed char. */
  function ClampPri(pri: int): (p: nat)
    ensures p < NUM_PRI
  {
    var p := ToSignedChar(pri - PRI_MIN);
    if p < PRI_MIN - PRI_MIN then 0
    else if p > PRI_MAX - PRI_MIN then PRI_MAX - PRI_MIN
    else p
  }

  /**
   * Within the documented range the queue index is the priority counted from the lowest one, and
   * out-of-range priorities saturate, except that the four largest signed chars wrap to the lowest
   * priority.
   */
  lemma ClampPriMeans(pri: int)
    requires -128 <= pri <= 127
    ensures PRI_MIN <= pri <= PRI_MAX ==> ClampPri(pri) == pri - PRI_MIN
    ensures pri <= PRI_MIN ==> ClampPri(pri) == 0
    ensures pri >= PRI_MAX ==> (ClampPri(pri) == NUM_PRI - 1 <==> pri <= 123)
    ensures pri > 123 ==> ClampPri(pri) == 0
  {
  }
}
