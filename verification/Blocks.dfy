/** Indented blocks of a YAML-like file: the header, the lines that belong to it,
    and the three scanners of integration/patch_suricata_config.go as searches for
    the first line that answers a probe.  */
module Blocks {
  import opened Text
  import opened Comments

  const PLUGINS := "plugins:"
  const UNIX := "unix-command:"

  /** What a scanner looks for in a line. */
  datatype Probe =
    | Header(key: string)   // the line is the header `key`, commented or not
    | Leaves(base: nat)     // the line is not blank and not indented deeper than `base`
    | Stops(base: nat)      // the line leaves the block or mentions the plugin
    | Mentions              // the line mentions the plugin

  predicate InBlock(l: string, base: nat) {
    l == "" || Lead(l) > base
  }

  predicate Hits(p: Probe, l: string) {
    match p
    case Header(key) => Normalize(l) == key
    case Leaves(base) => !InBlock(l, base)
    case Stops(base) => !InBlock(l, base) || Has(l)
    case Mentions => Has(l)
  }

  /** The first index from `s` on whose line answers the probe, or |ls|. */
  function First(ls: seq<string>, s: nat, p: Probe): (r: nat)
    requires s <= |ls|
    ensures s <= r <= |ls|
    ensures forall k | s <= k < r :: !Hits(p, ls[k])
    ensures r < |ls| ==> Hits(p, ls[r])
    decreases |ls| - s
  {
    hide Hits;
    if s == |ls| || Hits(p, ls[s]) then s else First(ls, s + 1, p)
  }

  lemma FirstIs(ls: seq<string>, s: nat, p: Probe, r: nat)
    requires s <= r <= |ls|
    requires forall k | s <= k < r :: !Hits(p, ls[k])
    requires r < |ls| ==> Hits(p, ls[r])
    ensures First(ls, s, p) == r
  {
    hide Hits;
  }

  /** The block of a header: the header's index and the index behind the block's last line. */
  function BlockEnd(ls: seq<string>, i: nat): (e: nat)
    requires i < |ls|
    ensures i < e <= |ls|
  {
    First(ls, i + 1, Leaves(Lead(ls[i])))
  }

  /** A line that mentions the plugin is neither header. */
  lemma MentionIsNoHeader(l: string)
    requires Has(l)
    ensures Normalize(l) != PLUGINS && Normalize(l) != UNIX
  {
    hide Normalize;
    var n := Normalize(l);
    var i :| 0 <= i <= |n| && At(n, i, NDPI);
    var w := n[i..i + |NDPI|];
    assert n[i] == w[0] == 'n' && n[i + 1] == w[1] == 'd';
  }

  lemma KeyIsTrimmed(key: string)
    requires key == PLUGINS || key == UNIX
    ensures TrimSpace(key) == key && Normalize(key) == key && Lead(key) == 0
    ensures !IsCommented(key)
  {
    TrimSpaceIs(key, 0, |key|);
    LeadIs(key, 0);
  }

  /** Uncommenting keeps a header a header, at its indent, and makes it active. */
  lemma HeaderUncommented(l: string, key: string)
    requires key == PLUGINS || key == UNIX
    requires Normalize(l) == key
    ensures Normalize(Uncomment(l)) == key && !IsCommented(Uncomment(l))
    ensures Lead(Uncomment(l)) == Lead(l) && l != "" && Uncomment(l) != ""
  {
    NormalizeUncommented(l);
    UncommentKeepsIndent(l);
  }

  /** Uncommenting a plugin line keeps it where every scanner finds it. */
  lemma MentionUncommented(l: string)
    requires Has(l)
    ensures Has(Uncomment(l)) && Lead(Uncomment(l)) == Lead(l) && Uncomment(l) != ""
    ensures Normalize(l) != PLUGINS && Normalize(Uncomment(l)) != PLUGINS
    ensures Normalize(l) != UNIX && Normalize(Uncomment(l)) != UNIX
  {
    HasIsContains(l);
    HasIsContains(Uncomment(l));
    UncommentKeepsIndent(l);
    MentionIsNoHeader(l);
    MentionIsNoHeader(Uncomment(l));
  }

  /** The scanner of ensurePluginsNDPI agrees with the block scanners: when the block
      holds no plugin line, it stops exactly at the block's end.  */
  lemma ScanStopsAtBlockEnd(ls: seq<string>, i: nat)
    requires i < |ls|
    ensures var e, k := BlockEnd(ls, i), First(ls, i + 1, Stops(Lead(ls[i])));
            && k <= e
            && (k < e <==> First(ls, i + 1, Mentions) < e)
            && (k < e ==> k == First(ls, i + 1, Mentions))
  {
  }
}
