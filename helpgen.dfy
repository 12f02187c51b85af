/**
 * The docstring generator (helpgen/helpgen.go): a walk over the parsed
 * TOML tree that emits one help entry per table holding a `usage` key,
 * keyed by the table's dotted path, visiting children in sorted key order.
 */
module Helpgen {
  import opened Common

  // ----- The parsed tree -----

  /** A TOML value as `ToMap` gives it: a table, a string, or any other value. */
  datatype Node = Table(members: seq<Member>) | Text(s: string) | Other(desc: string)

  /** One key of a table; the order of `members` is the map's iteration order. */
  datatype Member = Member(key: string, value: Node)

  /** `m[k]` on a table: the member with that key. */
  function Find(ms: seq<Member>, k: string): (r: Option<nat>)
    ensures r.Some? ==> r.value < |ms| && ms[r.value].key == k
    ensures r.Some? ==> forall i | 0 <= i < r.value :: ms[i].key != k
    ensures r.None? ==> forall i | 0 <= i < |ms| :: ms[i].key != k
  {
    if |ms| == 0 then None
    else if ms[0].key == k then Some(0)
    else match Find(ms[1..], k)
      case None => None
      case Some(i) => Some(i + 1)
  }

  /** The value under `k`, if any. */
  function Value(ms: seq<Member>, k: string): Option<Node>
  {
    match Find(ms, k)
    case Some(i) => Some(ms[i].value)
    case None => None
  }

  /** The keys of a table in iteration order. */
  function KeysOf(ms: seq<Member>): (r: seq<string>)
    ensures |r| == |ms| && forall i | 0 <= i < |ms| :: r[i] == ms[i].key
  {
    if |ms| == 0 then [] else [ms[0].key] + KeysOf(ms[1..])
  }

  /** The loop that appends every key of the table to `keys`. */
  method CollectKeys(ms: seq<Member>) returns (keys: seq<string>)
    ensures |keys| == |ms| && forall i | 0 <= i < |ms| :: keys[i] == ms[i].key
  {
    keys := [];
    for i := 0 to |ms|
      invariant |keys| == i && forall j | 0 <= j < i :: keys[j] == ms[j].key
    {
      keys := keys + [ms[i].key];
    }
  }

  // ----- strings.TrimSpace -----

  /** `unicode.IsSpace`: the ASCII white space, NEL, NBSP and the Unicode space separators. */
  predicate IsSpace(c: char)
  {
    var n := c as int;
    n == 0x20 || 0x09 <= n <= 0x0D || n == 0x85 || n == 0xA0 || n == 0x1680
    || 0x2000 <= n <= 0x200A || n == 0x2028 || n == 0x2029 || n == 0x202F || n == 0x205F || n == 0x3000
  }

  /** Where the white space starting at `i` ends: the first index from `i` on that is not white space. */
  function SpaceEnd(s: string, i: nat): (n: nat)
    requires i <= |s|
    ensures i <= n <= |s|
    ensures forall k | i <= k < n :: IsSpace(s[k])
    ensures n < |s| ==> !IsSpace(s[n])
    decreases |s| - i
  {
    if i < |s| && IsSpace(s[i]) then SpaceEnd(s, i + 1) else i
  }

  /** Where the white space ending at `j` starts, looking no further back than `lo`. */
  function SpaceStart(s: string, lo: nat, j: nat): (n: nat)
    requires lo <= j <= |s|
    ensures lo <= n <= j
    ensures forall k | n <= k < j :: IsSpace(s[k])
    ensures n > lo ==> !IsSpace(s[n - 1])
    decreases j
  {
    if j > lo && IsSpace(s[j - 1]) then SpaceStart(s, lo, j - 1) else j
  }

  /**
   * `strings.TrimSpace`: `s` without its leading and trailing white space,
   * which is all that is cut off.
   */
  function TrimSpace(s: string): (r: string)
    ensures var i := SpaceEnd(s, 0);
      && i + |r| <= |s| && r == s[i..i + |r|]
      && (forall k | 0 <= k < i :: IsSpace(s[k]))
      && (forall k | i + |r| <= k < |s| :: IsSpace(s[k]))
    ensures r == [] || (!IsSpace(r[0]) && !IsSpace(r[|r| - 1]))
  {
    var i := SpaceEnd(s, 0);
    var j := SpaceStart(s, i, |s|);
    s[i..j]
  }

  /** A string with no white space at either end is left as it is. */
  lemma TrimSpaceKeepsTrimmed(s: string)
    requires s == [] || (!IsSpace(s[0]) && !IsSpace(s[|s| - 1]))
    ensures TrimSpace(s) == s
  {
  }

  /** Trimming twice trims no more than once. */
  lemma TrimSpaceIdempotent(s: string)
    ensures TrimSpace(TrimSpace(s)) == TrimSpace(s)
  {
    TrimSpaceKeepsTrimmed(TrimSpace(s));
  }

  // ----- sort.Strings -----

  /** Go's `a <= b` on strings: byte-wise, which on UTF-8 is code-point order. */
  predicate Below(a: string, b: string)
  {
    |a| == 0 || (|b| > 0 && (a[0] < b[0] || (a[0] == b[0] && Below(a[1..], b[1..]))))
  }

  lemma {:induction false} BelowTotal(a: string, b: string)
    ensures Below(a, b) || Below(b, a)
  {
    if |a| > 0 && |b| > 0 && a[0] == b[0] {
      BelowTotal(a[1..], b[1..]);
    }
  }

  lemma {:induction false} BelowTransitive(a: string, b: string, c: string)
    requires Below(a, b) && Below(b, c)
    ensures Below(a, c)
  {
    if |a| > 0 && a[0] == b[0] && b[0] == c[0] {
      BelowTransitive(a[1..], b[1..], c[1..]);
    }
  }

  lemma {:induction false} BelowAntisymmetric(a: string, b: string)
    requires Below(a, b) && Below(b, a)
    ensures a == b
  {
    if |a| > 0 {
      BelowAntisymmetric(a[1..], b[1..]);
      assert a == [a[0]] + a[1..] && b == [b[0]] + b[1..];
    }
  }

  predicate Sorted(s: seq<string>)
  {
    forall i, j | 0 <= i < j < |s| :: Below(s[i], s[j])
  }

  function Insert(x: string, s: seq<string>): seq<string>
  {
    if |s| == 0 then [x] else if Below(x, s[0]) then [x] + s else [s[0]] + Insert(x, s[1..])
  }

  /** `sort.Strings`, as the ascending arrangement of the keys. */
  function SortSeq(s: seq<string>): seq<string>
  {
    if |s| == 0 then [] else Insert(s[0], SortSeq(s[1..]))
  }

  /** Every string of `s` is at or above `y`. */
  predicate LowerBound(y: string, s: seq<string>)
  {
    forall k | 0 <= k < |s| :: Below(y, s[k])
  }

  lemma {:induction false} InsertPermutation(x: string, s: seq<string>)
    ensures multiset(Insert(x, s)) == multiset(s) + multiset{x}
  {
    if |s| > 0 && !Below(x, s[0]) {
      InsertPermutation(x, s[1..]);
      assert s == [s[0]] + s[1..];
    }
  }

  lemma {:induction false} InsertLowerBound(y: string, x: string, s: seq<string>)
    requires LowerBound(y, s) && Below(y, x)
    ensures LowerBound(y, Insert(x, s))
  {
    if |s| > 0 && !Below(x, s[0]) {
      InsertLowerBound(y, x, s[1..]);
    }
  }

  lemma SortedCons(a: string, r: seq<string>)
    requires LowerBound(a, r) && Sorted(r)
    ensures Sorted([a] + r)
  {
    forall i, j | 0 <= i < j < |[a] + r| ensures Below(([a] + r)[i], ([a] + r)[j]) {
      if i > 0 {
        assert ([a] + r)[i] == r[i - 1];
      }
    }
  }

  lemma {:induction false} InsertSorted(x: string, s: seq<string>)
    requires Sorted(s)
    ensures Sorted(Insert(x, s))
  {
    if |s| > 0 {
      assert LowerBound(s[0], s[1..]) by {
        forall k | 0 <= k < |s[1..]| ensures Below(s[0], s[1..][k]) {
          assert s[1..][k] == s[1 + k];
        }
      }
      if Below(x, s[0]) {
        forall k | 0 <= k < |s| ensures Below(x, s[k]) {
          if k > 0 {
            BelowTransitive(x, s[0], s[k]);
          }
        }
        SortedCons(x, s);
      } else {
        BelowTotal(x, s[0]);
        InsertSorted(x, s[1..]);
        InsertLowerBound(s[0], x, s[1..]);
        SortedCons(s[0], Insert(x, s[1..]));
      }
    }
  }

  /** `sort.Strings` leaves the keys ascending and loses or adds none. */
  lemma {:induction false} SortSeqSortedPermutation(s: seq<string>)
    ensures Sorted(SortSeq(s)) && multiset(SortSeq(s)) == multiset(s)
  {
    if |s| > 0 {
      SortSeqSortedPermutation(s[1..]);
      InsertSorted(s[0], SortSeq(s[1..]));
      InsertPermutation(s[0], SortSeq(s[1..]));
      assert s == [s[0]] + s[1..];
    }
  }

  // ----- dumpMap -----

  /** The help strings of one command key, trimmed. */
  datatype DocEntry = DocEntry(key: string, usage: string, short: string, long: string)

  /** The entries written so far, the values reported as not handled, and whether a type assertion panicked. */
  datatype Out = Out(entries: seq<DocEntry>, unhandled: seq<Node>, panicked: bool)

  /** What a table contributes itself: nothing without `usage`, its entry, or a panic when a help string is missing or not a string. */
  datatype Own = NoUsage | OwnEntry(e: DocEntry) | BadHelp

  /** The `.(string)` assertion succeeds: the key is present and holds a string. */
  predicate IsText(v: Option<Node>)
  {
    v.Some? && v.value.Text?
  }

  function OwnOf(prefix: string, ms: seq<Member>): Own
  {
    if Find(ms, "usage").None? then NoUsage
    else
      var u, sh, l := Value(ms, "usage"), Value(ms, "shortHelp"), Value(ms, "longHelp");
      if IsText(u) && IsText(sh) && IsText(l) then
        OwnEntry(DocEntry(prefix, TrimSpace(u.value.s), TrimSpace(sh.value.s), TrimSpace(l.value.s)))
      else BadHelp
  }

  /** The path of child `k`: the key itself at the top level, dotted under a parent otherwise. */
  function ChildPath(prefix: string, k: string): string
  {
    if prefix != [] then prefix + "." + k else k
  }

  /** `dumpMap(prefix, node)` run after the output `out`. */
  function Dump(prefix: string, node: Node, out: Out): Out
    decreases node, 1
  {
    if !node.Table? || out.panicked then out
    else match OwnOf(prefix, node.members)
      case BadHelp => out.(panicked := true)
      case NoUsage => DumpKeys(prefix, node, SortSeq(KeysOf(node.members)), out)
      case OwnEntry(e) => DumpKeys(prefix, node, SortSeq(KeysOf(node.members)), out.(entries := out.entries + [e]))
  }

  /** The loop over the sorted keys. */
  function DumpKeys(prefix: string, node: Node, keys: seq<string>, out: Out): Out
    requires node.Table?
    decreases node, 0, |keys|
  {
    if |keys| == 0 || out.panicked then out
    else DumpKeys(prefix, node, keys[1..], Visit(prefix, node, keys[0], out))
  }

  /** One iteration: recurse into a table, skip a string, report anything else. */
  function Visit(prefix: string, node: Node, k: string, out: Out): Out
    requires node.Table?
    decreases node, 0, 0
  {
    match Find(node.members, k)
    case None => out  // the keys come from the table itself
    case Some(i) =>
      var v := node.members[i].value;
      match v
      case Table(_) => Dump(ChildPath(prefix, k), v, out)
      case Text(_) => out
      case Other(_) => out.(unhandled := out.unhandled + [v])
  }

  /** Standard output and standard error of the generator, as what `dumpMap` wrote to them. */
  class Emitter {
    var entries: seq<DocEntry>
    var unhandled: seq<Node>

    constructor()
      ensures entries == [] && unhandled == []
    {
      entries := [];
      unhandled := [];
    }

    /** `dumpMap`: write the table's own entry, then walk its children in sorted key order; a panic ends the walk. */
    method DumpMap(prefix: string, node: Node) returns (panicked: bool)
      requires node.Table?
      modifies this
      ensures Out(entries, unhandled, panicked) == Dump(prefix, node, Out(old(entries), old(unhandled), false))
      decreases node, 1
    {
      var ms := node.members;
      if Find(ms, "usage").Some? {
        var usage, short, long := Value(ms, "usage"), Value(ms, "shortHelp"), Value(ms, "longHelp");
        if !IsText(usage) || !IsText(short) || !IsText(long) {
          return true;
        }
        entries := entries + [DocEntry(prefix, TrimSpace(usage.value.s), TrimSpace(short.value.s), TrimSpace(long.value.s))];
      }
      var keys := CollectKeys(ms);
      assert keys == KeysOf(ms);
      keys := SortSeq(keys);
      panicked := DumpChildren(prefix, node, keys);
    }

    /** The loop of `dumpMap` over the sorted keys. */
    method DumpChildren(prefix: string, node: Node, keys: seq<string>) returns (panicked: bool)
      requires node.Table?
      modifies this
      ensures Out(entries, unhandled, panicked) == DumpKeys(prefix, node, keys, Out(old(entries), old(unhandled), false))
      decreases node, 0
    {
      var ms := node.members;
      ghost var start := Out(entries, unhandled, false);
      for i := 0 to |keys|
        invariant DumpKeys(prefix, node, keys[i..], Out(entries, unhandled, false)) == DumpKeys(prefix, node, keys, start)
      {
        var k := keys[i];
        assert keys[i..] == [k] + keys[i + 1..];
        var j := Find(ms, k);
        if j.Some? {
          var v := ms[j.value].value;
          if v.Table? {
            panicked := DumpMap(ChildPath(prefix, k), v);
            if panicked {
              DumpKeysPanicked(prefix, node, keys[i + 1..], Out(entries, unhandled, true));
              return;
            }
          } else if v.Other? {
            unhandled := unhandled + [v];
          }
        }
      }
      assert keys[|keys|..] == [];
      panicked := false;
    }
  }

  lemma {:induction false} DumpKeysPanicked(prefix: string, node: Node, keys: seq<string>, out: Out)
    requires node.Table? && out.panicked
    ensures DumpKeys(prefix, node, keys, out) == out
  {
  }

  // ----- What the walk promises -----

  /** `key` is the path `prefix` or a path below it. */
  predicate Under(key: string, prefix: string)
  {
    key == prefix || HasPrefix(key, prefix + ".")
  }

  /** A path below child `k` of `prefix` is below `prefix`. */
  lemma UnderChild(key: string, prefix: string, k: string)
    requires prefix != [] && Under(key, ChildPath(prefix, k))
    ensures Under(key, prefix)
  {
    var p := prefix + ".";
    assert ChildPath(prefix, k) == p + k;
    if key != p + k {
      assert key[..|p|] == (key[..|p + k + "."|])[..|p|];
      assert (p + k + ".")[..|p|] == p;
    } else {
      assert (p + k)[..|p|] == p;
    }
  }

  /** The walk only appends, stops once panicked, and every entry it adds under a non-empty prefix is keyed at or below it. */
  ghost predicate Extends(out: Out, r: Out, prefix: string)
  {
    && |out.entries| <= |r.entries| && r.entries[..|out.entries|] == out.entries
    && |out.unhandled| <= |r.unhandled| && r.unhandled[..|out.unhandled|] == out.unhandled
    && (out.panicked ==> r == out)
    && (prefix != [] ==> forall i | |out.entries| <= i < |r.entries| :: Under(r.entries[i].key, prefix))
  }

  lemma ExtendsTransitive(a: Out, b: Out, c: Out, prefix: string)
    requires Extends(a, b, prefix) && Extends(b, c, prefix)
    ensures Extends(a, c, prefix)
  {
    assert c.entries[..|a.entries|] == c.entries[..|b.entries|][..|a.entries|];
    assert c.unhandled[..|a.unhandled|] == c.unhandled[..|b.unhandled|][..|a.unhandled|];
  }

  /** `dumpMap(prefix, node)` appends to what was written, keeping every new key at or below `prefix`. */
  lemma {:induction false} DumpExtends(prefix: string, node: Node, out: Out)
    ensures Extends(out, Dump(prefix, node, out), prefix)
    decreases node, 1
  {
    if node.Table? && !out.panicked {
      var keys := SortSeq(KeysOf(node.members));
      match OwnOf(prefix, node.members)
      case BadHelp =>
      case NoUsage =>
        DumpKeysExtends(prefix, node, keys, out);
      case OwnEntry(e) =>
        var out' := out.(entries := out.entries + [e]);
        assert out'.entries[..|out.entries|] == out.entries;
        DumpKeysExtends(prefix, node, keys, out');
        ExtendsTransitive(out, out', DumpKeys(prefix, node, keys, out'), prefix);
    }
  }

  lemma {:induction false} DumpKeysExtends(prefix: string, node: Node, keys: seq<string>, out: Out)
    requires node.Table?
    ensures Extends(out, DumpKeys(prefix, node, keys, out), prefix)
    decreases node, 0, |keys|
  {
    if |keys| > 0 && !out.panicked {
      var out' := Visit(prefix, node, keys[0], out);
      VisitExtends(prefix, node, keys[0], out);
      DumpKeysExtends(prefix, node, keys[1..], out');
      ExtendsTransitive(out, out', DumpKeys(prefix, node, keys[1..], out'), prefix);
    }
  }

  lemma {:induction false} VisitExtends(prefix: string, node: Node, k: string, out: Out)
    requires node.Table? && !out.panicked
    ensures Extends(out, Visit(prefix, node, k, out), prefix)
    decreases node, 0, 0
  {
    match Find(node.members, k)
    case None =>
    case Some(i) =>
      var v := node.members[i].value;
      match v
      case Table(_) =>
        DumpExtends(ChildPath(prefix, k), v, out);
        var r := Dump(ChildPath(prefix, k), v, out);
        if prefix != [] {
          forall j | |out.entries| <= j < |r.entries| ensures Under(r.entries[j].key, prefix) {
            UnderChild(r.entries[j].key, prefix, k);
          }
        }
      case Text(_) =>
      case Other(_) =>
        assert (out.unhandled + [v])[..|out.unhandled|] == out.unhandled;
  }

  /**
   * A table with a `usage` key and string help texts writes its own entry
   * first, keyed by its path and with the three texts trimmed; every entry
   * written after it, for its descendants, is keyed below that path.
   */
  lemma OwnEntryFirst(prefix: string, node: Node, out: Out, u: string, sh: string, l: string)
    requires node.Table? && !out.panicked
    requires Value(node.members, "usage") == Some(Text(u))
    requires Value(node.members, "shortHelp") == Some(Text(sh)) && Value(node.members, "longHelp") == Some(Text(l))
    ensures var r := Dump(prefix, node, out);
      && |r.entries| > |out.entries| && r.entries[..|out.entries|] == out.entries
      && r.entries[|out.entries|] == DocEntry(prefix, TrimSpace(u), TrimSpace(sh), TrimSpace(l))
      && (prefix != [] ==> forall i | |out.entries| < i < |r.entries| :: HasPrefix(r.entries[i].key, prefix + ".") || r.entries[i].key == prefix)
  {
    var e := DocEntry(prefix, TrimSpace(u), TrimSpace(sh), TrimSpace(l));
    assert OwnOf(prefix, node.members) == OwnEntry(e);
    var out' := out.(entries := out.entries + [e]);
    var keys := SortSeq(KeysOf(node.members));
    DumpKeysExtends(prefix, node, keys, out');
    var r := DumpKeys(prefix, node, keys, out');
    assert r.entries[|out.entries|] == r.entries[..|out'.entries|][|out.entries|];
    assert r.entries[..|out.entries|] == r.entries[..|out'.entries|][..|out.entries|];
  }

  /** A table without `usage` writes no entry of its own: it writes nothing at all when none of its values is a table. */
  lemma {:induction false} LeavesWriteNothing(prefix: string, node: Node, keys: seq<string>, out: Out)
    requires node.Table? && forall i | 0 <= i < |node.members| :: !node.members[i].value.Table?
    ensures var r := DumpKeys(prefix, node, keys, out); r.entries == out.entries && r.panicked == out.panicked
    decreases |keys|
  {
    if |keys| > 0 && !out.panicked {
      LeavesWriteNothing(prefix, node, keys[1..], Visit(prefix, node, keys[0], out));
    }
  }

  /** Some table of the tree (this one or one reached through its keys) has `usage` with a help text missing or not a string. */
  ghost predicate Malformed(node: Node)
    decreases node
  {
    && node.Table?
    && (|| (Find(node.members, "usage").Some? && OwnOf([], node.members).BadHelp?)
        || exists i | 0 <= i < |node.members| && Find(node.members, node.members[i].key) == Some(i) ::
             node.members[i].value.Table? && Malformed(node.members[i].value))
  }

  /** The value under `k` is a malformed table. */
  ghost predicate BadChild(node: Node, k: string)
    requires node.Table?
  {
    match Find(node.members, k)
    case Some(i) => node.members[i].value.Table? && Malformed(node.members[i].value)
    case None => false
  }

  /** `dumpMap` on a table panics exactly when the tree below it is malformed. */
  lemma {:induction false} DumpPanicsIffMalformed(prefix: string, node: Node, out: Out)
    requires node.Table? && !out.panicked
    ensures Dump(prefix, node, out).panicked <==> Malformed(node)
    decreases node, 1
  {
    var ms := node.members;
    var keys := SortSeq(KeysOf(ms));
    match OwnOf(prefix, ms)
    case BadHelp =>
    case NoUsage =>
      DumpKeysPanics(prefix, node, keys, out);
      SortedKeysBad(node);
    case OwnEntry(e) =>
      DumpKeysPanics(prefix, node, keys, out.(entries := out.entries + [e]));
      SortedKeysBad(node);
  }

  lemma {:induction false} DumpKeysPanics(prefix: string, node: Node, keys: seq<string>, out: Out)
    requires node.Table? && !out.panicked
    ensures DumpKeys(prefix, node, keys, out).panicked <==> exists k | k in keys :: BadChild(node, k)
    decreases node, 0, |keys|
  {
    if |keys| > 0 {
      var out' := Visit(prefix, node, keys[0], out);
      VisitPanics(prefix, node, keys[0], out);
      if !out'.panicked {
        DumpKeysPanics(prefix, node, keys[1..], out');
        assert keys == [keys[0]] + keys[1..];
      }
    }
  }

  lemma {:induction false} VisitPanics(prefix: string, node: Node, k: string, out: Out)
    requires node.Table? && !out.panicked
    ensures Visit(prefix, node, k, out).panicked <==> BadChild(node, k)
    decreases node, 0, 0
  {
    match Find(node.members, k)
    case None =>
    case Some(i) =>
      var v := node.members[i].value;
      if v.Table? {
        DumpPanicsIffMalformed(ChildPath(prefix, k), v, out);
      }
  }

  /** The sorted keys reach a malformed child exactly when the table has one. */
  lemma SortedKeysBad(node: Node)
    requires node.Table?
    ensures (exists k | k in SortSeq(KeysOf(node.members)) :: BadChild(node, k)) <==>
      exists i | 0 <= i < |node.members| && Find(node.members, node.members[i].key) == Some(i) ::
        node.members[i].value.Table? && Malformed(node.members[i].value)
  {
    var ms := node.members;
    SortSeqSortedPermutation(KeysOf(ms));
    if k :| k in SortSeq(KeysOf(ms)) && BadChild(node, k) {
      assert k in multiset(KeysOf(ms));
      var i :| 0 <= i < |ms| && KeysOf(ms)[i] == k;
      var j := Find(ms, k).value;
      assert Find(ms, ms[j].key) == Some(j);
    }
    if i :| 0 <= i < |ms| && Find(ms, ms[i].key) == Some(i) && ms[i].value.Table? && Malformed(ms[i].value) {
      assert KeysOf(ms)[i] == ms[i].key;
      assert ms[i].key in multiset(SortSeq(KeysOf(ms)));
      assert BadChild(node, ms[i].key);
    }
  }
}
