/** The image-slot sidecar store: edits racing the first read of the sidecar file, and the serialized
    writes that follow. */
module SlotStore {
  import opened Wrappers

  type Id = string

  /** Zoom and offsets of a slot's crop. */
  datatype Frame = Frame(s: real, x: real, y: real)

  /** A stored value: a bare URL in older sidecars, else a crop with or without (empty) a URL. */
  datatype Entry = Bare(url: string) | Framed(u: string, frame: Frame)

  type Slots = map<Id, Entry>

  datatype Edit =
    | Put(id: Id, url: string)
    | Clear(id: Id)
    | Reframe(id: Id, frame: Frame)

  const NO_CROP := Frame(1.0, 0.0, 0.0)

  function Lower(s: string): string {
    seq(|s|, i requires 0 <= i < |s| => if 'A' <= s[i] <= 'Z' then s[i] + 32 as char else s[i])
  }

  /** Only data:image/ URLs are taken from the store. */
  predicate IsImage(url: string) {
    |url| >= 11 && Lower(url[..11]) == "data:image/"
  }

  function UrlOf(e: Entry): string {
    match e
    case Bare(url) => url
    case Framed(u, _) => u
  }

  /** The image the slot shows from the store, or "" for none; a reframe carries this one along. */
  function Rendered(slots: Slots, id: Id): string {
    if id in slots && IsImage(UrlOf(slots[id])) then UrlOf(slots[id]) else ""
  }

  /** The value an edit hands to `setSlot`; None clears. */
  function ValueOf(slots: Slots, e: Edit): Option<Entry> {
    match e
    case Put(_, url) => Some(Framed(url, NO_CROP))
    case Clear(_) => None
    case Reframe(id, frame) => Some(Framed(Rendered(slots, id), frame))
  }

  function Edited(slots: Slots, e: Edit): Slots {
    match ValueOf(slots, e)
    case Some(v) => slots[e.id := v]
    case None => slots - {e.id}
  }

  /** Dropped images were encoded as data:image/ URLs. */
  ghost predicate Genuine(es: seq<Edit>) {
    forall i :: 0 <= i < |es| && es[i].Put? ==> IsImage(es[i].url)
  }

  // ---- before the sidecar is read: slots and tombstones ----

  datatype Early = Early(slots: Slots, tombstones: set<Id>)

  function EarlyEdited(a: Early, e: Edit): Early {
    Early(Edited(a.slots, e), if e.Clear? then a.tombstones + {e.id} else a.tombstones - {e.id})
  }

  ghost function EarlyRun(es: seq<Edit>): Early {
    if es == [] then Early(map[], {})
    else EarlyEdited(EarlyRun(es[..|es| - 1]), es[|es| - 1])
  }

  /** The same edits applied to an already loaded store. */
  ghost function LateRun(slots: Slots, es: seq<Edit>): Slots {
    if es == [] then slots
    else Edited(LateRun(slots, es[..|es| - 1]), es[|es| - 1])
  }

  /** A framing-only entry takes over the image that is only on disk. */
  function Inherit(mine: Entry, disk: Slots, id: Id): Entry {
    if mine.Framed? && mine.u == "" && id in disk then mine.(u := UrlOf(disk[id])) else mine
  }

  /** `load`'s merge of the sidecar with what was edited meanwhile. */
  function Merge(disk: Slots, early: Early): (r: Slots)
    ensures forall id :: id in r <==> (id in disk || id in early.slots) && id !in early.tombstones
    ensures forall id :: id in r ==>
              r[id] == if id in early.slots then Inherit(early.slots[id], disk, id) else disk[id]
  {
    map id | id in disk.Keys + early.slots.Keys && id !in early.tombstones ::
      if id in early.slots then Inherit(early.slots[id], disk, id) else disk[id]
  }

  // ---- what a list of edits does to one slot ----

  /** What the last put or clear left. */
  datatype Base = Untouched | Replaced(url: string) | Cleared

  /** And the last crop set since. */
  datatype Trace = Trace(base: Base, framed: Option<Frame>)

  function TraceOf(es: seq<Edit>, id: Id): Trace {
    if es == [] then Trace(Untouched, None)
    else
      var before := TraceOf(es[..|es| - 1], id);
      match es[|es| - 1]
      case Put(at, url) => if at == id then Trace(Replaced(url), None) else before
      case Clear(at) => if at == id then Trace(Cleared, None) else before
      case Reframe(at, frame) => if at == id then Trace(before.base, Some(frame)) else before
  }

  function CropOf(t: Trace): Frame { if t.framed.Some? then t.framed.value else NO_CROP }

  lemma {:induction false} TraceUrlIsImage(es: seq<Edit>, id: Id)
    requires Genuine(es)
    ensures TraceOf(es, id).base.Replaced? ==> IsImage(TraceOf(es, id).base.url)
  {
    if es != [] {
      TraceUrlIsImage(es[..|es| - 1], id);
    }
  }

  lemma {:induction false} EarlyMeaning(es: seq<Edit>, id: Id)
    requires Genuine(es)
    ensures var t := TraceOf(es, id);
            var a := EarlyRun(es);
            && (id in a.slots <==> t.base.Replaced? || t.framed.Some?)
            && (id in a.tombstones <==> t.base.Cleared? && t.framed.None?)
            && (id in a.slots ==>
                  a.slots[id] == Framed(if t.base.Replaced? then t.base.url else "", CropOf(t)))
  {
    if es != [] {
      var n := |es| - 1;
      EarlyMeaning(es[..n], id);
      TraceUrlIsImage(es[..n], id);
    }
  }

  lemma {:induction false} LateMeaning(disk: Slots, es: seq<Edit>, id: Id)
    requires Genuine(es)
    ensures var t := TraceOf(es, id);
            var s := LateRun(disk, es);
            && (t.base.Untouched? && t.framed.None? ==>
                  (id in s <==> id in disk) && (id in s ==> s[id] == disk[id]))
            && (t.base.Untouched? && t.framed.Some? ==> id in s && s[id] == Framed(Rendered(disk, id), CropOf(t)))
            && (t.base.Cleared? && t.framed.None? ==> id !in s)
            && (t.base.Cleared? && t.framed.Some? ==> id in s && s[id] == Framed("", CropOf(t)))
            && (t.base.Replaced? ==> id in s && s[id] == Framed(t.base.url, CropOf(t)))
  {
    if es != [] {
      var n := |es| - 1;
      LateMeaning(disk, es[..n], id);
      TraceUrlIsImage(es[..n], id);
    }
  }

  // ---- the hydration race ----

  predicate SameAt(a: Slots, b: Slots, id: Id) {
    (id in a <==> id in b) && (id in a ==> a[id] == b[id])
  }

  /** The sidecar holds an image for the slot, its crop was changed before the read landed, and either
      the slot was cleared before that change, or nothing replaced it and the sidecar's URL is not one
      the store would show. */
  predicate Resurrects(disk: Slots, es: seq<Edit>, id: Id) {
    var t := TraceOf(es, id);
    && id in disk && UrlOf(disk[id]) != "" && t.framed.Some?
    && (t.base.Cleared? || (t.base.Untouched? && !IsImage(UrlOf(disk[id]))))
  }

  /** Editing while the sidecar is on its way gives a slot the same value as reading first and editing
      then, if and only if the slot is not of that one kind. */
  lemma HydrationRace(disk: Slots, es: seq<Edit>, id: Id)
    requires Genuine(es)
    ensures SameAt(Merge(disk, EarlyRun(es)), LateRun(disk, es), id) <==> !Resurrects(disk, es, id)
  {
    EarlyMeaning(es, id);
    LateMeaning(disk, es, id);
    TraceUrlIsImage(es, id);
  }

  /** For the whole store. */
  lemma HydrationIsTransparent(disk: Slots, es: seq<Edit>)
    requires Genuine(es)
    ensures Merge(disk, EarlyRun(es)) == LateRun(disk, es) <==> forall id :: !Resurrects(disk, es, id)
  {
    forall id ensures SameAt(Merge(disk, EarlyRun(es)), LateRun(disk, es), id) <==> !Resurrects(disk, es, id) {
      HydrationRace(disk, es, id);
    }
    if forall id :: !Resurrects(disk, es, id) {
      SameEverywhere(Merge(disk, EarlyRun(es)), LateRun(disk, es));
    }
    if Merge(disk, EarlyRun(es)) == LateRun(disk, es) {
      forall id ensures !Resurrects(disk, es, id) {
        assert SameAt(Merge(disk, EarlyRun(es)), LateRun(disk, es), id);
      }
    }
  }

  lemma SameEverywhere(a: Slots, b: Slots)
    requires forall id :: SameAt(a, b, id)
    ensures a == b
  {
    forall id ensures id in a <==> id in b {
      assert SameAt(a, b, id);
    }
    forall id | id in a ensures a[id] == b[id] {
      assert SameAt(a, b, id);
    }
  }

  /** A cleared image comes back if the crop is touched before the read lands. */
  lemma ClearThenReframeResurrects()
    ensures var disk := map["a" := Bare("data:image/png;base64,x")];
            var es := [Clear("a"), Reframe("a", NO_CROP)];
            "a" in Merge(disk, EarlyRun(es))
            && Rendered(Merge(disk, EarlyRun(es)), "a") == "data:image/png;base64,x"
            && Rendered(LateRun(disk, es), "a") == ""
  {
    var disk := map["a" := Bare("data:image/png;base64,x")];
    var es := [Clear("a"), Reframe("a", NO_CROP)];
    assert es[..1] == [Clear("a")] && es[..1][..0] == [];
    assert "data:image/png;base64,x"[..11] == "data:image/";
    assert Lower("data:image/") == "data:image/";
    assert EarlyRun(es[..1]) == EarlyEdited(EarlyRun([]), Clear("a"));
    assert LateRun(disk, es[..1]) == Edited(LateRun(disk, []), Clear("a"));
  }

  /** Even without a clear, a crop changed before the read lands keeps a URL that reading first drops. */
  lemma ReframeAloneCanDiffer()
    ensures var disk := map["a" := Bare("https://x")];
            var es := [Reframe("a", NO_CROP)];
            !SameAt(Merge(disk, EarlyRun(es)), LateRun(disk, es), "a")
  {
    var es := [Reframe("a", NO_CROP)];
    assert es[..0] == [];
    HydrationRace(map["a" := Bare("https://x")], es, "a");
  }
}
