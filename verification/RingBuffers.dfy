/** The bounded buffer behind a shell's output: ringBuffer in bash_session.go. Bytes are characters here. */
module RingBuffers {

  /** The last `max` characters of `s`; all of it when `max` is not positive. */
  function Tail(s: string, max: int): (r: string)
    ensures |r| <= |s| && r == s[|s| - |r|..]
    ensures max > 0 ==> |r| <= max
    ensures |r| < |s| <==> max > 0 && |s| > max
  {
    if max > 0 && |s| > max then s[|s| - max..] else s
  }

  /** Cutting before an append or only after it makes no difference. */
  lemma {:induction false} TailOfTail(s: string, more: string, max: int)
    ensures Tail(Tail(s, max) + more, max) == Tail(s + more, max)
  {
    if max > 0 && |s| > max {
      var cut := |s| - max;
      assert s[cut..] + more == (s + more)[cut..];
    }
  }

  class RingBuffer {
    const max: int
    var data: string
    var total: int
    var truncated: bool
    /** Everything ever written. */
    ghost var written: string

    ghost predicate Valid()
      reads this
    {
      data == Tail(written, max) && total == |written| && (truncated <==> |data| < |written|)
    }

    constructor (max: int)
      ensures Valid() && written == "" && this.max == max
    {
      this.max := max;
      data, total, truncated, written := "", 0, false, "";
    }

    method WriteString(value: string)
      requires Valid()
      modifies this
      ensures Valid() && written == old(written) + value
    {
      TailOfTail(written, value, max);
      total := total + |value|;
      data := data + value;
      if max > 0 && |data| > max {
        truncated := true;
        data := data[|data| - max..];
      }
      written := written + value;
    }

    method String() returns (r: string)
      requires Valid()
      ensures r == Tail(written, max)
    {
      r := data;
    }

    method Offset() returns (r: int)
      requires Valid()
      ensures r == |written|
    {
      r := total;
    }

    /** What was written from `offset` on, as far as it is still there. */
    method StringFrom(offset: int) returns (r: string)
      requires Valid()
      ensures r == if offset >= |written| then ""
              else if offset <= |written| - |Tail(written, max)| then Tail(written, max) else written[offset..]
    {
      var startOffset := total - |data|;
      var from := if offset < startOffset then startOffset else offset;
      if from > total {
        from := total;
      }
      r := data[from - startOffset..];
    }

    method Truncated() returns (r: bool)
      requires Valid()
      ensures r <==> max > 0 && |written| > max
    {
      r := truncated;
    }
  }
}
