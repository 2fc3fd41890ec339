/**
 The `schedules` array of a train document in the search index, the upsert script that maintains it,
 and its behaviour when Kafka delivers messages again.
 */
module ScheduleIndex {
  import opened Options

  datatype Value = Null | Number(n: int) | Text(s: string)

  type Entry = map<string, Value>

  type Document = seq<Entry>

  const ID := "schedule_id"

  function Digits(n: nat): string {
    if n < 10 then [("0123456789")[n]] else Digits(n / 10) + [("0123456789")[n % 10]]
  }

  /** `toString()`, so that the number 7 and the text "7" are the same id. */
  function Shown(v: Value): string
    requires v != Null
  {
    match v
    case Number(n) => if n < 0 then "-" + Digits(-n) else Digits(n)
    case Text(s) => s
  }

  function IdOf(e: Entry): Option<string> {
    if ID in e && e[ID] != Null then Some(Shown(e[ID])) else None
  }

  /** The position of the first entry with this id, or the length of the array. */
  function IndexOf(d: Document, id: string): (i: nat)
    ensures i <= |d| && (i < |d| ==> IdOf(d[i]) == Some(id))
    ensures forall j :: 0 <= j < i ==> IdOf(d[j]) != Some(id)
  {
    if d == [] then 0 else if IdOf(d[0]) == Some(id) then 0 else 1 + IndexOf(d[1..], id)
  }

  function Upsert(d: Document, p: Entry): Document
    requires IdOf(p).Some?
  {
    var i := IndexOf(d, IdOf(p).value);
    if i < |d| then d[i := d[i] + p] else d + [p]
  }

  class RouteDocument {
    /** `None` until the first schedule is stored. */
    var schedules: Option<Document>

    function Contents(): Document
      reads this
    {
      if schedules.Some? then schedules.value else []
    }

    constructor ()
      ensures Contents() == []
    {
      schedules := None;
    }

    /** A payload without an id makes the script fail, and a failed script leaves the document as it was. */
    method UpsertSchedule(p: Entry) returns (ok: bool)
      modifies this
      ensures ok <==> IdOf(p).Some?
      ensures ok ==> schedules == Some(Upsert(old(Contents()), p))
      ensures !ok ==> schedules == old(schedules)
    {
      var d := if schedules == None then [] else schedules.value;
      if IdOf(p) == None {
        return false;
      }
      var target := IdOf(p).value;
      var i := 0;
      while i < |d|
        invariant i <= |d| && d == old(Contents()) == Contents()
        invariant forall j :: 0 <= j < i ==> IdOf(d[j]) != Some(target)
      {
        if IdOf(d[i]) == Some(target) {
          var merged := Merge(d[i], p);
          assert i == IndexOf(d, target);
          schedules := Some(d[i := merged]);
          return true;
        }
        i := i + 1;
      }
      assert IndexOf(d, target) == |d|;
      schedules := Some(d + [p]);
      return true;
    }

    /** The loop over the entry set of the parameters. */
    method Merge(e: Entry, p: Entry) returns (merged: Entry)
      ensures merged == e + p
    {
      merged := e;
      var rest := p.Keys;
      while rest != {}
        invariant rest <= p.Keys && merged == e + (p - rest)
      {
        var f :| f in rest;
        merged := merged[f := p[f]];
        rest := rest - {f};
      }
      assert p - rest == p;
    }
  }

  /* ---- the array as a map ---- */

  ghost predicate UniqueIds(d: Document) {
    forall i, j :: 0 <= i < j < |d| && IdOf(d[i]).Some? ==> IdOf(d[i]) != IdOf(d[j])
  }

  ghost predicate HasId(d: Document, id: string) {
    exists i :: 0 <= i < |d| && IdOf(d[i]) == Some(id)
  }

  /** What a reader finds under an id; the empty entry when there is none. */
  function Lookup(d: Document, id: string): Entry {
    if IndexOf(d, id) < |d| then d[IndexOf(d, id)] else map[]
  }

  lemma MergedId(e: Entry, p: Entry)
    requires IdOf(p).Some?
    ensures IdOf(e + p) == IdOf(p)
  {
  }

  lemma UpsertKeepsUniqueIds(d: Document, p: Entry)
    requires UniqueIds(d) && IdOf(p).Some?
    ensures UniqueIds(Upsert(d, p))
  {
    var i := IndexOf(d, IdOf(p).value);
    if i < |d| {
      MergedId(d[i], p);
    }
  }

  lemma OverlaysInPlace(d: Document, p: Entry, id: string)
    requires UniqueIds(d) && IdOf(p).Some? && IndexOf(d, IdOf(p).value) < |d|
    ensures Lookup(Upsert(d, p), id) == if IdOf(p) == Some(id) then Lookup(d, id) + p else Lookup(d, id)
    ensures |Upsert(d, p)| == |d| && forall j :: 0 <= j < |d| ==> IdOf(Upsert(d, p)[j]) == IdOf(d[j])
  {
    var d' := Upsert(d, p);
    MergedId(d[IndexOf(d, IdOf(p).value)], p);
    assert forall j :: 0 <= j < |d| ==> IdOf(d'[j]) == IdOf(d[j]);
    assert IndexOf(d', id) == IndexOf(d, id);
  }

  lemma AppendsNew(d: Document, p: Entry, id: string)
    requires UniqueIds(d) && IdOf(p).Some? && IndexOf(d, IdOf(p).value) == |d|
    ensures Lookup(Upsert(d, p), id) == if IdOf(p) == Some(id) then Lookup(d, id) + p else Lookup(d, id)
    ensures var d' := Upsert(d, p); |d'| == |d| + 1 && d'[|d|] == p && forall j :: 0 <= j < |d| ==> d'[j] == d[j]
  {
    var d' := Upsert(d, p);
    assert d'[|d|] == p;
    assert forall j :: 0 <= j < |d| ==> d'[j] == d[j];
    if IdOf(p) == Some(id) {
      assert IndexOf(d', id) == |d|;
    } else if IndexOf(d, id) < |d| {
      assert IndexOf(d', id) == IndexOf(d, id);
    }
  }

  /** The upsert is a map merge: the entry of the payload's id is overlaid field by field, every other id is untouched. */
  lemma UpsertRefinesMerge(d: Document, p: Entry, id: string)
    requires UniqueIds(d) && IdOf(p).Some?
    ensures Lookup(Upsert(d, p), id) == if IdOf(p) == Some(id) then Lookup(d, id) + p else Lookup(d, id)
    ensures HasId(Upsert(d, p), id) <==> HasId(d, id) || IdOf(p) == Some(id)
  {
    var d' := Upsert(d, p);
    if IndexOf(d, IdOf(p).value) < |d| {
      OverlaysInPlace(d, p, id);
    } else {
      AppendsNew(d, p, id);
    }
    if HasId(d, id) {
      var j :| 0 <= j < |d| && IdOf(d[j]) == Some(id);
      assert IdOf(d'[j]) == Some(id);
    }
  }

  /* ---- streams of messages ---- */

  ghost predicate Addressed(xs: seq<Entry>) {
    forall i :: 0 <= i < |xs| ==> IdOf(xs[i]).Some?
  }

  function Process(d: Document, xs: seq<Entry>): Document
    requires forall i :: 0 <= i < |xs| ==> IdOf(xs[i]).Some?
  {
    if xs == [] then d else Upsert(Process(d, xs[..|xs| - 1]), xs[|xs| - 1])
  }

  /** All fields written for one id, the last write of a field winning. */
  function Overlay(xs: seq<Entry>, id: string): Entry {
    if xs == [] then map[]
    else
      var x := xs[|xs| - 1];
      Overlay(xs[..|xs| - 1], id) + Written(x, id)
  }

  /** The ids that a stream adds to a document, in the order of their first message. */
  function NewIds(d: Document, xs: seq<Entry>): seq<string>
    requires forall i :: 0 <= i < |xs| ==> IdOf(xs[i]).Some?
  {
    if xs == [] then []
    else
      var prefix := NewIds(d, xs[..|xs| - 1]);
      var id := IdOf(xs[|xs| - 1]).value;
      if id in prefix || IndexOf(d, id) < |d| then prefix else prefix + [id]
  }

  /** The fields that one message writes for an id. */
  function Written(x: Entry, id: string): Entry {
    if IdOf(x) == Some(id) then x else map[]
  }

  lemma OverlayAssociates(a: Entry, b: Entry, c: Entry)
    ensures (a + b) + c == a + (b + c)
  {
  }

  lemma OverlayLast(xs: seq<Entry>, k: nat, id: string)
    requires |xs| == k + 1
    ensures Overlay(xs, id) == Overlay(xs[..k], id) + Written(xs[k], id)
  {
  }

  lemma {:induction false} OverlaySplit(xs: seq<Entry>, n: nat, id: string)
    requires n <= |xs|
    ensures Overlay(xs, id) == Overlay(xs[..n], id) + Overlay(xs[n..], id)
    decreases |xs|
  {
    hide IdOf, Overlay, Written;
    if n == |xs| {
      assert xs[..n] == xs && xs[n..] == [];
      OverlayNothing(id);
    } else {
      var k := |xs| - 1;
      OverlaySplit(xs[..k], n, id);
      assert xs[..k][..n] == xs[..n] && xs[..k][n..] == xs[n..][..k - n] && xs[n..][k - n] == xs[k];
      OverlayLast(xs, k, id);
      OverlayLast(xs[n..], k - n, id);
      OverlayAssociates(Overlay(xs[..n], id), Overlay(xs[n..k], id), Written(xs[k], id));
    }
  }

  lemma OverlayNothing(id: string)
    ensures Overlay([], id) == map[]
    ensures forall e: Entry :: e + map[] == e && map[] + e == e
  {
  }

  function Ids(d: Document): (ids: seq<Option<string>>)
    ensures |ids| == |d| && forall i :: 0 <= i < |d| ==> ids[i] == IdOf(d[i])
  {
    seq(|d|, i requires 0 <= i < |d| => IdOf(d[i]))
  }

  /** Entries that no message can name: the script passes over them. */
  ghost predicate SameUnnamed(a: Document, b: Document) {
    forall i :: 0 <= i < |a| && i < |b| && IdOf(a[i]).None? ==> b[i] == a[i]
  }

  lemma IndexIsPosition(d: Document, i: nat)
    requires UniqueIds(d) && i < |d| && IdOf(d[i]).Some?
    ensures IndexOf(d, IdOf(d[i]).value) == i
  {
    hide Digits, Shown;
    assert IndexOf(d, IdOf(d[i]).value) <= i;
  }

  lemma {:induction false} KnownIffInIds(d: Document, id: string)
    ensures IndexOf(d, id) < |d| <==> Some(id) in Ids(d)
  {
    hide Digits, Shown, IdOf, IndexOf;
    if Some(id) in Ids(d) {
      var i :| 0 <= i < |d| && Ids(d)[i] == Some(id);
    }
  }

  /** Identities, entries by identity and unnamed entries determine a document. */
  lemma SameDocument(a: Document, b: Document)
    requires UniqueIds(a) && UniqueIds(b) && Ids(a) == Ids(b) && SameUnnamed(a, b)
    requires forall id :: Lookup(a, id) == Lookup(b, id)
    ensures a == b
  {
    hide Digits, Shown, IdOf, IndexOf;
    forall i | 0 <= i < |a| ensures a[i] == b[i] {
      assert Ids(a)[i] == Ids(b)[i];
      if IdOf(a[i]).Some? {
        IndexIsPosition(a, i);
        IndexIsPosition(b, i);
        assert Lookup(a, IdOf(a[i]).value) == Lookup(b, IdOf(a[i]).value);
      }
    }
  }

  lemma UpsertKeepsPlaces(d: Document, p: Entry)
    requires IdOf(p).Some?
    ensures Ids(Upsert(d, p)) == if Some(IdOf(p).value) in Ids(d) then Ids(d) else Ids(d) + [IdOf(p)]
    ensures SameUnnamed(d, Upsert(d, p))
  {
    hide Digits, Shown;
    KnownIffInIds(d, IdOf(p).value);
    var i := IndexOf(d, IdOf(p).value);
    if i < |d| {
      MergedId(d[i], p);
    }
  }

  function Named(ids: seq<string>): (named: seq<Option<string>>)
    ensures |named| == |ids| && forall i :: 0 <= i < |ids| ==> named[i] == Some(ids[i])
  {
    seq(|ids|, i requires 0 <= i < |ids| => Some(ids[i]))
  }

  lemma NewIdsStep(d: Document, xs: seq<Entry>, k: nat)
    requires Addressed(xs) && |xs| == k + 1
    ensures var (known, id) := (NewIds(d, xs[..k]), IdOf(xs[k]).value);
      NewIds(d, xs) == if id in known || IndexOf(d, id) < |d| then known else known + [id]
  {
  }

  /** The entry of an id after a stream: its fields overlaid with everything the stream wrote for it. */
  lemma {:induction false} ProcessRefinesOverlay(d: Document, xs: seq<Entry>, id: string)
    requires Addressed(xs) && UniqueIds(d)
    ensures UniqueIds(Process(d, xs)) && Lookup(Process(d, xs), id) == Lookup(d, id) + Overlay(xs, id)
  {
    hide Digits, Shown, IndexOf, Lookup, Upsert, UniqueIds;
    if xs == [] {
      OverlayNothing(id);
    } else {
      var k := |xs| - 1;
      ProcessRefinesOverlay(d, xs[..k], id);
      UpsertKeepsUniqueIds(Process(d, xs[..k]), xs[k]);
      UpsertRefinesMerge(Process(d, xs[..k]), xs[k], id);
      OverlayLast(xs, k, id);
      OverlayNothing(id);
      OverlayAssociates(Lookup(d, id), Overlay(xs[..k], id), Written(xs[k], id));
    }
  }

  /** A stream appends the ids it introduces, in the order of their first message, and moves nothing. */
  lemma {:induction false} ProcessAppendsNewIds(d: Document, xs: seq<Entry>)
    requires Addressed(xs)
    ensures Ids(Process(d, xs)) == Ids(d) + Named(NewIds(d, xs)) && SameUnnamed(d, Process(d, xs))
  {
    hide Digits, Shown, IdOf, IndexOf, Upsert, NewIds;
    if xs != [] {
      var k := |xs| - 1;
      var (r, id, known) := (Process(d, xs[..k]), IdOf(xs[k]).value, NewIds(d, xs[..k]));
      ProcessAppendsNewIds(d, xs[..k]);
      UpsertKeepsPlaces(r, xs[k]);
      NewIdsStep(d, xs, k);
      KnownIffInIds(d, id);
      InAppended(Ids(d), known, id);
      assert IdOf(xs[k]) == Some(id);
      if id in known || IndexOf(d, id) < |d| {
      } else {
        assert Named(known + [id]) == Named(known) + [Some(id)];
      }
      SameUnnamedAgain(d, r, Upsert(r, xs[k]));
    } else {
      assert NewIds(d, xs) == [] by { NoNewIds(d); }
    }
  }

  lemma NoNewIds(d: Document)
    ensures NewIds(d, []) == []
  {
  }

  lemma InAppended(ids: seq<Option<string>>, names: seq<string>, id: string)
    ensures Some(id) in ids + Named(names) <==> Some(id) in ids || id in names
  {
    if id in names {
      var i :| 0 <= i < |names| && names[i] == id;
      assert Named(names)[i] == Some(id);
      assert (ids + Named(names))[|ids| + i] == Some(id);
    }
  }

  lemma SameUnnamedAgain(a: Document, b: Document, c: Document)
    requires SameUnnamed(a, b) && SameUnnamed(b, c) && |a| <= |b|
    ensures SameUnnamed(a, c)
  {
  }

  /** Two streams that write the same fields and introduce the same ids in the same order give one document. */
  lemma StreamDetermines(d: Document, xs: seq<Entry>, ys: seq<Entry>)
    requires Addressed(xs) && Addressed(ys) && UniqueIds(d)
    requires NewIds(d, xs) == NewIds(d, ys) && forall id :: Overlay(xs, id) == Overlay(ys, id)
    ensures Process(d, xs) == Process(d, ys)
  {
    hide Digits, Shown, IdOf, IndexOf, Lookup, Process, NewIds, Overlay, UniqueIds;
    var (a, b) := (Process(d, xs), Process(d, ys));
    ProcessAppendsNewIds(d, xs);
    ProcessAppendsNewIds(d, ys);
    forall id ensures UniqueIds(a) && UniqueIds(b) && Lookup(a, id) == Lookup(b, id) {
      ProcessRefinesOverlay(d, xs, id);
      ProcessRefinesOverlay(d, ys, id);
    }
    assert UniqueIds(a) && UniqueIds(b) by { ProcessRefinesOverlay(d, xs, ""); ProcessRefinesOverlay(d, ys, ""); }
    UnnamedOfBoth(d, a, b);
    SameDocument(a, b);
  }

  lemma UnnamedOfBoth(d: Document, a: Document, b: Document)
    requires SameUnnamed(d, a) && SameUnnamed(d, b) && Ids(a) == Ids(b) && |d| <= |a|
    requires forall i :: |d| <= i < |a| ==> Ids(a)[i].Some?
    requires forall i :: 0 <= i < |d| ==> Ids(a)[i] == Ids(d)[i]
    ensures SameUnnamed(a, b)
  {
    hide Digits, Shown, IdOf;
    forall i | 0 <= i < |a| && IdOf(a[i]).None? ensures b[i] == a[i] {
      assert Ids(a)[i] == IdOf(a[i]);
      if i < |d| { assert Ids(d)[i] == IdOf(d[i]); }
    }
  }

  /* ---- at-least-once delivery ---- */

  /** Offsets in the order of delivery: each one is the next offset or, after a restart, an earlier one. */
  ghost predicate Redelivery(offsets: seq<nat>, n: nat) {
    && (offsets != [] ==> offsets[0] == 0)
    && (forall j :: 0 <= j < |offsets| ==> offsets[j] < n)
    && (forall j :: 0 < j < |offsets| ==> offsets[j] <= offsets[j - 1] + 1)
  }

  function Delivered(xs: seq<Entry>, offsets: seq<nat>): (ys: seq<Entry>)
    requires forall j :: 0 <= j < |offsets| ==> offsets[j] < |xs|
    ensures |ys| == |offsets| && forall j :: 0 <= j < |ys| ==> ys[j] == xs[offsets[j]]
  {
    if offsets == [] then [] else Delivered(xs, offsets[..|offsets| - 1]) + [xs[offsets[|offsets| - 1]]]
  }

  /** The number of messages delivered at least once. */
  function HighWater(offsets: seq<nat>): nat {
    if offsets == [] then 0
    else
      var h := HighWater(offsets[..|offsets| - 1]);
      if offsets[|offsets| - 1] < h then h else offsets[|offsets| - 1] + 1
  }

  lemma {:induction false} HighWaterBounds(offsets: seq<nat>, n: nat)
    requires Redelivery(offsets, n)
    ensures HighWater(offsets) <= n && (offsets != [] ==> offsets[|offsets| - 1] < HighWater(offsets))
    ensures offsets != [] ==> offsets[|offsets| - 1] <= HighWater(offsets[..|offsets| - 1])
  {
    if offsets != [] {
      HighWaterBounds(offsets[..|offsets| - 1], n);
    }
  }

  /** Overlaying `q` instead of its tail `c` changes nothing when the total already contains `q`. */
  lemma OverlayAgain(p: Entry, q: Entry, c: Entry, total: Entry)
    requires p + c == total && c.Keys <= q.Keys && total + q == total
    ensures p + q == total
  {
    forall f | f in q ensures f in total && total[f] == q[f] {
      assert f in total + q && (total + q)[f] == q[f];
    }
    forall f | f in total && f !in q ensures f in p && p[f] == total[f] {
      assert f in p + c;
    }
    forall f | f in p && f !in q ensures f in total && total[f] == p[f] {
      assert f in p + c && (p + c)[f] == p[f];
    }
    assert p + q == total;
  }

  lemma FromFirst(xs: seq<Entry>, r: nat, h: nat, id: string)
    requires r < h <= |xs|
    ensures Overlay(xs[r..h], id) == Written(xs[r], id) + Overlay(xs[r + 1..h], id)
  {
    hide IdOf, Overlay, Written;
    var s := xs[r..h];
    OverlaySplit(s, 1, id);
    assert s[1..] == xs[r + 1..h] && s[..1] == [xs[r]] && s[..1][..0] == [];
    OverlayLast(s[..1], 0, id);
    OverlayNothing(id);
  }

  lemma CutAt(xs: seq<Entry>, a: nat, b: nat, c: nat, id: string)
    requires a <= b <= c <= |xs|
    ensures Overlay(xs[a..c], id) == Overlay(xs[a..b], id) + Overlay(xs[b..c], id)
  {
    hide IdOf, Overlay, Written;
    OverlaySplit(xs[a..c], b - a, id);
    assert xs[a..c][..b - a] == xs[a..b] && xs[a..c][b - a..] == xs[b..c];
  }

  /** Going back to message `r` after everything up to `g` was written, the last one being `c - 1`. */
  lemma BackTo(xs: seq<Entry>, p: Entry, r: nat, c: nat, g: nat, id: string)
    requires r <= c <= g <= |xs| && p + Overlay(xs[c..g], id) == Overlay(xs[..g], id)
    ensures p + Overlay(xs[r..g], id) == Overlay(xs[..g], id)
  {
    hide IdOf, Overlay, Written;
    var (q, t, total) := (Overlay(xs[r..g], id), Overlay(xs[c..g], id), Overlay(xs[..g], id));
    CutAt(xs, r, c, g, id);
    CutAt(xs, 0, r, g, id);
    assert xs[0..g] == xs[..g] && xs[0..r] == xs[..r];
    OverlayAgain(p, q, t, total);
  }

  lemma RedeliveredStep(xs: seq<Entry>, p: Entry, r: nat, c: nat, g: nat, id: string)
    requires r <= c <= g <= |xs| && r < |xs| && p + Overlay(xs[c..g], id) == Overlay(xs[..g], id)
    ensures var h := if r < g then g else r + 1;
      (p + Written(xs[r], id)) + Overlay(xs[r + 1..h], id) == Overlay(xs[..h], id)
  {
    hide IdOf, Overlay, Written;
    OverlayNothing(id);
    if r < g {
      BackTo(xs, p, r, c, g, id);
      FromFirst(xs, r, g, id);
      OverlayAssociates(p, Written(xs[r], id), Overlay(xs[r + 1..g], id));
    } else {
      assert xs[c..g] == [] && xs[r + 1..r + 1] == [];
      OverlayLast(xs[..r + 1], r, id);
      assert xs[..r + 1][..r] == xs[..g];
    }
  }

  lemma DeliveredLast(xs: seq<Entry>, offsets: seq<nat>, k: nat)
    requires |offsets| == k + 1 && forall j :: 0 <= j < |offsets| ==> offsets[j] < |xs|
    ensures Delivered(xs, offsets)[..k] == Delivered(xs, offsets[..k]) && Delivered(xs, offsets)[k] == xs[offsets[k]]
  {
  }

  /** What was delivered, completed by the tail not yet delivered again, writes what the first messages write. */
  lemma {:induction false} RedeliveredOverlay(xs: seq<Entry>, offsets: seq<nat>, id: string)
    requires Redelivery(offsets, |xs|) && offsets != []
    ensures offsets[|offsets| - 1] < HighWater(offsets) <= |xs|
    ensures Overlay(Delivered(xs, offsets), id) + Overlay(xs[offsets[|offsets| - 1] + 1..HighWater(offsets)], id)
      == Overlay(xs[..HighWater(offsets)], id)
    decreases |offsets|
  {
    hide IdOf, Overlay, Written, HighWater, Delivered;
    HighWaterBounds(offsets, |xs|);
    var k := |offsets| - 1;
    var (prior, r) := (offsets[..k], offsets[k]);
    DeliveredLast(xs, offsets, k);
    OverlayLast(Delivered(xs, offsets), k, id);
    HighWaterStep(offsets, k);
    if k == 0 {
      assert xs[0..0] == [] && xs[..0] == [] && Delivered(xs, prior) == [];
      OverlayNothing(id);
      RedeliveredStep(xs, map[], 0, 0, 0, id);
    } else {
      RedeliveredOverlay(xs, prior, id);
      RedeliveredStep(xs, Overlay(Delivered(xs, prior), id), r, prior[k - 1] + 1, HighWater(prior), id);
    }
  }

  lemma HighWaterStep(offsets: seq<nat>, k: nat)
    requires |offsets| == k + 1
    ensures HighWater(offsets) == if offsets[k] < HighWater(offsets[..k]) then HighWater(offsets[..k]) else offsets[k] + 1
    ensures HighWater([]) == 0
  {
  }

  lemma {:induction false} RedeliveredIds(d: Document, xs: seq<Entry>, offsets: seq<nat>)
    requires Addressed(xs) && Redelivery(offsets, |xs|)
    ensures HighWater(offsets) <= |xs| && NewIds(d, Delivered(xs, offsets)) == NewIds(d, xs[..HighWater(offsets)])
    decreases |offsets|
  {
    hide IdOf, HighWater, Delivered, NewIds, IndexOf;
    HighWaterBounds(offsets, |xs|);
    if offsets != [] {
      var k := |offsets| - 1;
      var (prior, g, ys) := (offsets[..k], HighWater(offsets[..k]), Delivered(xs, offsets));
      RedeliveredIds(d, xs, prior);
      DeliveredLast(xs, offsets, k);
      HighWaterStep(offsets, k);
      NewIdsStep(d, ys, k);
      if offsets[k] < g {
        OldIdKnown(d, xs[..g], offsets[k]);
      } else {
        NewIdsStep(d, xs[..g + 1], g);
        assert xs[..g + 1][..g] == xs[..g];
      }
    } else {
      HighWaterStep([0], 0);
      assert Delivered(xs, offsets) == [] == xs[..0];
    }
  }

  lemma {:induction false} OldIdKnown(d: Document, xs: seq<Entry>, i: nat)
    requires Addressed(xs) && i < |xs|
    ensures var id := IdOf(xs[i]).value; id in NewIds(d, xs) || IndexOf(d, id) < |d|
  {
    if i < |xs| - 1 {
      OldIdKnown(d, xs[..|xs| - 1], i);
    }
  }

  /**
   Whatever the restarts, once the last message has been delivered and no earlier one follows it, the document
   is the one that a single in-order pass over the messages produces.
   */
  lemma RedeliveryIsHarmless(d: Document, xs: seq<Entry>, offsets: seq<nat>)
    requires Addressed(xs) && UniqueIds(d) && Redelivery(offsets, |xs|)
    requires offsets != [] && offsets[|offsets| - 1] == |xs| - 1
    ensures Process(d, Delivered(xs, offsets)) == Process(d, xs)
  {
    HighWaterBounds(offsets, |xs|);
    var h := HighWater(offsets);
    assert h == |xs| && xs[..h] == xs && xs[h..h] == [];
    RedeliveredIds(d, xs, offsets);
    forall id ensures Overlay(Delivered(xs, offsets), id) == Overlay(xs, id) {
      RedeliveredOverlay(xs, offsets, id);
    }
    StreamDetermines(d, xs, Delivered(xs, offsets));
  }
}
