/** A reader over a list of strings (v2/lens3/utility.go, strings_reader). */
module StringsReader {

  type Byte = b: int | 0 <= b < 256

  function Concat(ss: seq<seq<Byte>>): seq<Byte> {
    if ss == [] then [] else ss[0] + Concat(ss[1..])
  }

  class Reader {
    const ss: seq<seq<Byte>>
    var pos: nat
    var ind: nat

    ghost predicate Valid()
      reads this
    {
      pos <= |ss| && (if pos < |ss| && ss[pos] != [] then ind < |ss[pos]| else ind == 0)
    }

    /** What is still to be delivered. */
    ghost function Rest(): seq<Byte>
      requires Valid()
      reads this
    {
      if pos == |ss| then [] else ss[pos][ind..] + Concat(ss[pos + 1..])
    }

    constructor (ss: seq<seq<Byte>>)
      ensures Valid() && this.ss == ss && Rest() == Concat(ss)
    {
      this.ss := ss;
      pos, ind := 0, 0;
      new;
      if |ss| > 0 {
        assert ss[0][0..] == ss[0];
      }
    }

    /** Skips empty strings: nothing is lost. */
    method SkipEmpty()
      requires Valid()
      modifies `pos
      ensures Valid() && Rest() == old(Rest())
      ensures pos < |ss| ==> ss[pos] != []
    {
      while pos < |ss| && |ss[pos]| == 0
        invariant Valid() && Rest() == old(Rest())
        decreases |ss| - pos
      {
        assert Rest() == Concat(ss[pos + 1..]);
        pos := pos + 1;
        if pos < |ss| {
          assert ss[pos..][1..] == ss[pos + 1..] && ss[pos][0..] == ss[pos];
        } else {
          assert ss[pos..] == [];
        }
      }
    }

    /** Read: the bytes written into the buffer are the next ones, and the rest
        stays to be read.  It reports the end exactly when nothing is left, and
        else makes progress in any buffer that is not empty. */
    method Read(b: array<Byte>) returns (n: nat, eof: bool)
      requires Valid()
      modifies this, b
      ensures Valid() && n <= b.Length
      ensures old(Rest()) == b[..n] + Rest()
      ensures b[n..] == old(b[..])[n..]
      ensures eof <==> old(Rest()) == []
      ensures eof ==> n == 0
      ensures !eof && b.Length > 0 ==> n > 0
    {
      hide Concat;
      SkipEmpty();
      if pos == |ss| {
        return 0, true;
      }
      var src := ss[pos][ind..];
      n := if b.Length < |src| then b.Length else |src|;
      forall i | 0 <= i < n {
        b[i] := src[i];
      }
      assert b[..n] == src[..n];
      Advance(n);
      eof := false;
    }

    /** Moves on by n bytes of the current string. */
    method Advance(n: nat)
      requires Valid() && pos < |ss| && ss[pos] != [] && n <= |ss[pos][ind..]|
      modifies this
      ensures Valid() && old(Rest()) == old(ss[pos][ind..])[..n] + Rest()
    {
      ghost var src, tail := ss[pos][ind..], Concat(ss[pos + 1..]);
      assert Rest() == src + tail && src == src[..n] + src[n..];
      hide Concat;
      ind := ind + n;
      if ind == |ss[pos]| {
        ind := 0;
        pos := pos + 1;
        Begins();
        assert src[n..] == [];
      } else {
        assert src[n..] == ss[pos][ind..];
      }
      assert Rest() == src[n..] + tail;
    }

    /** At the start of a string, the rest is all strings from there. */
    ghost method Begins()
      requires Valid() && ind == 0
      ensures Rest() == Concat(ss[pos..])
    {
      if pos < |ss| {
        assert ss[pos..][1..] == ss[pos + 1..] && ss[pos][0..] == ss[pos];
      } else {
        assert ss[pos..] == [];
      }
    }

    /** Any sequence of reads with non-empty buffers delivers a prefix of what was
        left, in order, at least a byte at a time, so that enough reads deliver all
        of it; and a read says that this is the end only when all is delivered. */
    method ReadMany(sizes: seq<nat>) returns (out: seq<Byte>, end: bool)
      requires Valid() && forall i | 0 <= i < |sizes| :: sizes[i] > 0
      modifies this
      ensures Valid() && out + Rest() == old(Rest())
      ensures end ==> out == old(Rest()) && Rest() == []
      ensures |sizes| > |old(Rest())| ==> end
      ensures |sizes| >= |old(Rest())| ==> out == old(Rest())
    {
      hide Valid, Rest, Concat;
      out, end := [], false;
      ghost var all := Rest();
      var i := 0;
      while i < |sizes|
        invariant 0 <= i <= |sizes| && Valid() && out + Rest() == all
        invariant |out| >= i || Rest() == []
        invariant end ==> Rest() == []
        invariant i > |all| ==> end
      {
        var b := new Byte[sizes[i]](_ => 0);
        ghost var before := Rest();
        var n, eof := Read(b);
        assert out + before == out + b[..n] + Rest();
        out := out + b[..n];
        end := end || eof;
        i := i + 1;
      }
    }
  }
}
