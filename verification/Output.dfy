/**
  The bounded capture of a child process's output. Only whole outputs are used: a child over its budget is stopped
  once, and what was captured of it is thrown away.
 */
module Output {
  import opened Records
  import opened Usage

  const GIT_LIMIT: nat := 0x80_0000

  /** `stops` counts the requests to stop the child's process group. */
  datatype Capture = Capture(keep: bool, limit: nat, buffer: seq<byte>, count: nat, exceeded: bool, stops: nat)

  function Empty(keep: bool, limit: nat): Capture { Capture(keep, limit, [], 0, false, 0) }

  function Prefix(s: seq<byte>, n: nat): seq<byte> { if |s| <= n then s else s[..n] }

  function Take(c: Capture, value: seq<byte>): Capture {
    var count := c.count + |value|;
    var buffer := if c.keep && |c.buffer| < c.limit then c.buffer + Prefix(value, c.limit - |c.buffer|) else c.buffer;
    var stop := count > c.limit && !c.exceeded;
    Capture(c.keep, c.limit, buffer, count, c.exceeded || stop, c.stops + if stop then 1 else 0)
  }

  function TakeAll(c: Capture, values: seq<seq<byte>>): Capture {
    if values == [] then c else Take(TakeAll(c, values[..|values| - 1]), values[|values| - 1])
  }

  /** What a capture means: the longest prefix of everything written that fits, and whether it is all of it. */
  predicate Reflects(c: Capture, written: seq<byte>) {
    && c.buffer == (if c.keep then Prefix(written, c.limit) else [])
    && c.count == |written|
    && (c.exceeded <==> |written| > c.limit)
    && c.stops == if c.exceeded then 1 else 0
  }

  lemma TakeReflects(c: Capture, written: seq<byte>, value: seq<byte>)
    requires Reflects(c, written)
    ensures Reflects(Take(c, value), written + value)
  {
    if c.keep && |written| < c.limit {
      assert Prefix(written + value, c.limit) == written + Prefix(value, c.limit - |written|);
    } else if c.keep {
      assert Prefix(written + value, c.limit) == Prefix(written, c.limit);
    }
  }

  lemma {:induction false} FlattenAppend(values: seq<seq<byte>>, value: seq<byte>)
    ensures Flatten(values + [value]) == Flatten(values) + value
  {
    if values == [] {
      assert values + [value] == [value] && Flatten([value][1..]) == [];
    } else {
      assert (values + [value])[1..] == values[1..] + [value];
      FlattenAppend(values[1..], value);
    }
  }

  /** For every sequence of writes, whatever their sizes. */
  lemma {:induction false} WholeOrExceeded(keep: bool, limit: nat, values: seq<seq<byte>>)
    ensures Reflects(TakeAll(Empty(keep, limit), values), Flatten(values))
  {
    if values != [] {
      var n := |values| - 1;
      assert values == values[..n] + [values[n]];
      WholeOrExceeded(keep, limit, values[..n]);
      FlattenAppend(values[..n], values[n]);
      TakeReflects(TakeAll(Empty(keep, limit), values[..n]), Flatten(values[..n]), values[n]);
    }
  }

  class BoundedOutput {
    const keep: bool
    const limit: nat
    var buffer: seq<byte>
    var count: nat
    var exceeded: bool
    ghost var stops: nat

    ghost function View(): Capture reads this { Capture(keep, limit, buffer, count, exceeded, stops) }

    constructor (keep: bool, limit: nat)
      ensures View() == Empty(keep, limit)
    {
      this.keep, this.limit := keep, limit;
      buffer, count, exceeded, stops := [], 0, false, 0;
    }

    method Write(value: seq<byte>)
      modifies this
      ensures View() == Take(old(View()), value)
    {
      count := count + |value|;
      if keep && |buffer| < limit {
        var remaining := limit - |buffer|;
        if remaining > |value| { remaining := |value|; }
        buffer := buffer + value[..remaining];
      }
      var stop := count > limit && !exceeded;
      if stop { exceeded, stops := true, stops + 1; }
    }
  }

  /** A git command's output: complete, or an error. */
  method Git(writes: seq<seq<byte>>, failed: bool) returns (r: Option<seq<byte>>)
    ensures r == if !failed && |Flatten(writes)| <= 8 * 1048576 then Some(Flatten(writes)) else None
  {
    var output := new BoundedOutput(true, GIT_LIMIT);
    for i := 0 to |writes|
      invariant output.View() == TakeAll(Empty(true, GIT_LIMIT), writes[..i])
    {
      assert writes[..i + 1][..i] == writes[..i];
      output.Write(writes[i]);
    }
    assert writes[..|writes|] == writes;
    WholeOrExceeded(true, GIT_LIMIT, writes);
    if output.exceeded || failed { return None; }
    return Some(output.buffer);
  }
}
