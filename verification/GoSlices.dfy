/** Go slices of strings: a length in front of a backing array that other slices may share.
    Appending writes into spare capacity when there is any, and otherwise moves to a new array.  */
module GoSlices {
  import opened PatchSpec

  datatype Slice = Slice(base: array<string>, len: nat) {
    ghost predicate Valid() {
      len <= base.Length
    }

    /** The elements the slice shows. */
    function View(): (v: seq<string>)
      requires Valid()
      reads base
      ensures |v| == len
    {
      base[..len]
    }
  }

  method FromSeq(ls: seq<string>) returns (s: Slice)
    ensures s.Valid() && fresh(s.base) && s.View() == ls
  {
    var capacity :| capacity >= |ls|;
    var base := new string[capacity](i => if 0 <= i < |ls| then ls[i] else "");
    s := Slice(base, |ls|);
  }

  /** append(s, xs...) */
  method Append(s: Slice, xs: seq<string>) returns (r: Slice)
    requires s.Valid()
    modifies s.base
    ensures r.Valid() && r.View() == old(s.View()) + xs
    ensures s.base[..s.len] == old(s.base[..s.len])
    ensures if s.len + |xs| <= s.base.Length then r.base == s.base else fresh(r.base)
  {
    if s.len + |xs| <= s.base.Length {
      var j := 0;
      while j < |xs|
        invariant j <= |xs|
        invariant s.base[..s.len + j] == old(s.base[..s.len]) + xs[..j]
      {
        s.base[s.len + j] := xs[j];
        j := j + 1;
      }
      r := Slice(s.base, s.len + |xs|);
    } else {
      r := FromSeq(s.base[..s.len] + xs);
    }
  }

  /** append(s[:k], append([]string{x}, s[k:]...)...): the outer append may overwrite the array
      that the inner one was filled from, and still the result is s with x inserted at k.  */
  method Splice(s: Slice, k: nat, x: string) returns (r: Slice)
    requires s.Valid() && k <= s.len
    modifies s.base
    ensures r.Valid() && r.View() == Insert(old(s.View()), k, x)
    ensures r.base == s.base || fresh(r.base)
  {
    var one := FromSeq([x]);
    var tail := Append(one, s.View()[k..]);
    r := Append(Slice(s.base, k), tail.View());
    assert s.base[..k] == old(s.View())[..k];
  }
}
