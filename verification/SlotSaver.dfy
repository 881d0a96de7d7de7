/** The sidecar store as it lives on the page: one read, then writes that never overlap. */
module SlotSaver {
  import opened Wrappers
  import opened Runs
  import opened SlotStore

  /** The page's variables; the writes under way, the file and the last snapshot handed to the host;
      and, for the record, what the read returned and the edits made before and after it. */
  datatype Store = Store(slots: Slots, tombstones: set<Id>, loaded: bool, saving: bool, saveDirty: bool,
                         waiting: nat, writable: bool,
                         flying: seq<Slots>, file: Slots, last: Option<Slots>, landed: bool,
                         base: Option<Slots>, early: seq<Edit>, late: seq<Edit>)

  datatype Event =
    | Do(edit: Edit)
    | Fetched(found: bool)
    | FetchFailed
    | Callback                    // one `load().then(save)` comes due
    | Landed(k: nat, ok: bool)    // a write completes or is refused

  /** A page that has just started reading `file`; `writable` says whether the host offers writes. */
  function Fresh(file: Slots, writable: bool): Store {
    Store(map[], {}, false, false, false, 0, writable, [], file, None, false, None, [], [])
  }

  function AfterSave(st: Store): Store {
    if st.saving then st.(saveDirty := true)
    else if !st.writable then st
    else st.(saving := true, flying := st.flying + [st.slots], last := Some(st.slots))
  }

  /** `setSlot`; a slot without an id stores nothing. */
  function AfterEdit(st: Store, e: Edit): Store {
    if e.id == "" then st
    else if st.loaded then
      AfterSave(st.(slots := Edited(st.slots, e),
                    tombstones := if e.Clear? then st.tombstones else st.tombstones - {e.id},
                    late := st.late + [e]))
    else
      var a := EarlyEdited(Early(st.slots, st.tombstones), e);
      st.(slots := a.slots, tombstones := a.tombstones, early := st.early + [e], waiting := st.waiting + 1)
  }

  /** The read lands: merge what it found, or take nothing from it. */
  function AfterFetch(st: Store, found: bool): Store {
    if st.loaded then st
    else if found then
      st.(slots := Merge(st.file, Early(st.slots, st.tombstones)), tombstones := {}, loaded := true,
          base := Some(st.file))
    else st.(tombstones := {}, loaded := true)
  }

  function AfterLanding(st: Store, k: nat, ok: bool): Store {
    if k >= |st.flying| then st
    else
      var done := st.(file := if ok then st.flying[k] else st.file, landed := ok,
                      flying := st.flying[..k] + st.flying[k + 1..], saving := false, saveDirty := false);
      if st.saveDirty then AfterSave(done) else done
  }

  function Next(st: Store, ev: Event): Store {
    match ev
    case Do(e) => AfterEdit(st, e)
    case Fetched(found) => AfterFetch(st, found)
    case FetchFailed => if st.loaded then st else st.(loaded := true)
    case Callback => if st.loaded && st.waiting > 0 then AfterSave(st.(waiting := st.waiting - 1)) else st
    case Landed(k, ok) => AfterLanding(st, k, ok)
  }

  // ---- the page's own code ----

  class Page {
    var slots: Slots
    var tombstones: set<Id>
    var loaded: bool
    var saving: bool
    var saveDirty: bool
    var waiting: nat
    const writable: bool
    ghost var flying: seq<Slots>
    ghost var file: Slots
    ghost var last: Option<Slots>
    ghost var landed: bool
    ghost var base: Option<Slots>
    ghost var early: seq<Edit>
    ghost var late: seq<Edit>

    ghost function View(): Store
      reads this
    {
      Store(slots, tombstones, loaded, saving, saveDirty, waiting, writable,
            flying, file, last, landed, base, early, late)
    }

    constructor (onDisk: Slots, canWrite: bool)
      ensures View() == Fresh(onDisk, canWrite)
    {
      slots, tombstones, loaded, saving, saveDirty, waiting := map[], {}, false, false, false, 0;
      writable := canWrite;
      flying, file, last, landed, base, early, late := [], onDisk, None, false, None, [], [];
    }

    /** `save`: a request while a write is under way only marks the store dirty. */
    method Save()
      modifies this
      ensures View() == AfterSave(old(View()))
    {
      if saving { saveDirty := true; return; }
      if !writable { return; }
      saving := true;
      flying := flying + [slots];
      last := Some(slots);
    }

    /** `setSlot`, with the value the edit stands for. */
    method SetSlot(e: Edit)
      modifies this
      ensures View() == AfterEdit(old(View()), e)
    {
      if e.id == "" { return; }
      WriteSlot(e);
      if loaded {
        late := late + [e];
        Save();
      } else {
        early := early + [e];
        waiting := waiting + 1;
      }
    }

    /** The map half of `setSlot`; a cleared slot leaves a tombstone only before the merge. */
    method WriteSlot(e: Edit)
      modifies this`slots, this`tombstones
      ensures slots == Edited(old(slots), e)
      ensures tombstones == if !e.Clear? then old(tombstones) - {e.id}
                            else if loaded then old(tombstones) else old(tombstones) + {e.id}
    {
      var val := ValueOf(slots, e);
      if val.Some? {
        slots := slots[e.id := val.value];
        tombstones := tombstones - {e.id};
      } else {
        slots := slots - {e.id};
        if !loaded { tombstones := tombstones + {e.id}; }
      }
    }

    /** The merge in `load`: lay the edits over the sidecar, then drop the tombstoned ids. */
    method MergeSidecar(disk: Slots) returns (merged: Slots)
      ensures merged == Merge(disk, Early(slots, tombstones))
    {
      merged := LayOver(disk, slots);
      merged := DropIds(merged, tombstones);
    }

    /** The read resolves with the sidecar's text, or with an answer that is not a sidecar. */
    method OnFetched(found: bool, disk: Slots)
      requires !loaded && disk == file
      modifies this
      ensures View() == AfterFetch(old(View()), found)
    {
      if found {
        slots := MergeSidecar(disk);
        base := Some(disk);
      }
      tombstones := {};
      loaded := true;
    }

    /** A write settles. */
    method OnLanded(ghost k: nat, ok: bool)
      requires k < |flying|
      modifies this
      ensures View() == AfterLanding(old(View()), k, ok)
    {
      file := if ok then flying[k] else file;
      landed := ok;
      flying := flying[..k] + flying[k + 1..];
      saving := false;
      if saveDirty {
        saveDirty := false;
        Save();
      }
    }
  }

  /** Copy the sidecar, lay the edits over it and let framing-only entries inherit the image on disk. */
  method LayOver(disk: Slots, mine: Slots) returns (merged: Slots)
    ensures merged.Keys == disk.Keys + mine.Keys
    ensures forall id :: id in merged ==> merged[id] == if id in mine then Inherit(mine[id], disk, id) else disk[id]
  {
    merged := disk + mine;
    var todo := mine.Keys;
    while todo != {}
      invariant todo <= mine.Keys
      invariant merged.Keys == disk.Keys + mine.Keys
      invariant forall id :: id in disk && id !in mine ==> merged[id] == disk[id]
      invariant forall id :: id in todo ==> merged[id] == mine[id]
      invariant forall id :: id in mine && id !in todo ==> merged[id] == Inherit(mine[id], disk, id)
      decreases |todo|
    {
      var k :| k in todo;
      if merged[k].Framed? && merged[k].u == "" && k in disk {
        merged := merged[k := merged[k].(u := UrlOf(disk[k]))];
      }
      todo := todo - {k};
    }
  }

  method DropIds(slots: Slots, dead: set<Id>) returns (r: Slots)
    ensures r == slots - dead
  {
    r := slots;
    var todo := dead;
    while todo != {}
      invariant todo <= dead
      invariant r == slots - (dead - todo)
      decreases |todo|
    {
      var id :| id in todo;
      r := r - {id};
      todo := todo - {id};
    }
  }

  // ---- what holds throughout ----

  /** At most one write is under way, and nothing is written before the merge. */
  predicate WritesOk(st: Store) {
    && |st.flying| <= 1
    && (st.saving <==> |st.flying| == 1)
    && (|st.flying| == 1 ==> st.last == Some(st.flying[0]))
    && (st.saveDirty ==> st.saving)
    && (!st.loaded ==> st.last.None? && st.flying == [] && !st.landed)
    && (st.landed && st.flying == [] ==> st.last == Some(st.file))
  }

  /** With no write owed, the last snapshot handed over is the store itself. */
  predicate NothingLost(st: Store) {
    st.writable && st.loaded && st.waiting == 0 && !st.saveDirty && st.early + st.late != [] ==>
      st.last == Some(st.slots)
  }

  ghost predicate HistoryOk(st: Store) {
    && (!st.loaded ==> Early(st.slots, st.tombstones) == EarlyRun(st.early) && st.late == [] && st.base.None?)
    && (st.loaded && st.base.Some? ==> st.slots == LateRun(Merge(st.base.value, EarlyRun(st.early)), st.late))
    && (st.loaded && st.base.None? ==> st.slots == LateRun(EarlyRun(st.early).slots, st.late))
    && (!st.loaded && st.waiting == 0 ==> st.early == [])
  }

  ghost predicate Ok(st: Store) {
    WritesOk(st) && NothingLost(st) && HistoryOk(st)
  }

  lemma LateEdit(slots: Slots, late: seq<Edit>, e: Edit)
    ensures LateRun(slots, late + [e]) == Edited(LateRun(slots, late), e)
  {
    assert (late + [e])[..|late|] == late;
    hide Edited;
  }

  lemma EarlyEdit(early: seq<Edit>, e: Edit)
    ensures EarlyRun(early + [e]) == EarlyEdited(EarlyRun(early), e)
  {
    assert (early + [e])[..|early|] == early;
    hide EarlyEdited;
  }

  lemma SaveKeepsHistory(st: Store)
    requires HistoryOk(st)
    ensures HistoryOk(AfterSave(st))
  {
    hide Merge, LateRun, EarlyRun;
  }

  lemma LateEditKeepsHistory(st: Store, e: Edit, dead: set<Id>)
    requires HistoryOk(st) && st.loaded
    ensures HistoryOk(st.(slots := Edited(st.slots, e), tombstones := dead, late := st.late + [e]))
  {
    LateEdit(EarlyRun(st.early).slots, st.late, e);
    if st.base.Some? { LateEdit(Merge(st.base.value, EarlyRun(st.early)), st.late, e); }
    hide Merge, Edited, LateRun, EarlyRun;
  }

  lemma EarlyEditKeepsHistory(st: Store, e: Edit)
    requires HistoryOk(st) && !st.loaded
    ensures var a := EarlyEdited(Early(st.slots, st.tombstones), e);
            HistoryOk(st.(slots := a.slots, tombstones := a.tombstones, early := st.early + [e], waiting := st.waiting + 1))
  {
    EarlyEdit(st.early, e);
    hide Merge, Edited, EarlyEdited, LateRun, EarlyRun;
  }

  lemma EditKeepsHistory(st: Store, e: Edit)
    requires HistoryOk(st)
    ensures HistoryOk(AfterEdit(st, e))
  {
    if st.loaded {
      var dead := if e.Clear? then st.tombstones else st.tombstones - {e.id};
      LateEditKeepsHistory(st, e, dead);
      SaveKeepsHistory(st.(slots := Edited(st.slots, e), tombstones := dead, late := st.late + [e]));
    } else {
      EarlyEditKeepsHistory(st, e);
    }
    hide HistoryOk, AfterSave, Edited, EarlyEdited;
  }

  lemma FetchKeepsHistory(st: Store, found: bool)
    requires HistoryOk(st)
    ensures HistoryOk(AfterFetch(st, found))
  {
    hide Merge, Edited, EarlyRun;
  }

  lemma NextKeepsOk(st: Store, ev: Event)
    requires Ok(st)
    ensures Ok(Next(st, ev))
    ensures Next(st, ev).writable == st.writable
  {
    if ev.Do? { EditKeepsHistory(st, ev.edit); }
    if ev.Fetched? { FetchKeepsHistory(st, ev.found); }
  }

  ghost function Step(): (Store, Event) -> Store {
    (st, ev) => Next(st, ev)
  }

  ghost function Run(st: Store, evs: seq<Event>): Store {
    Fold(Step(), st, evs)
  }

  lemma {:induction false} RunKeepsOk(st: Store, evs: seq<Event>)
    requires Ok(st)
    ensures Ok(Run(st, evs))
    ensures Run(st, evs).writable == st.writable
  {
    if evs != [] {
      var n := |evs| - 1;
      RunKeepsOk(st, evs[..n]);
      NextKeepsOk(Run(st, evs[..n]), evs[n]);
    }
  }

  /** The file is still `disk`, or `disk` is what the read returned. */
  predicate ReadFrom(st: Store, disk: Slots) {
    (!st.loaded ==> st.file == disk) && (st.base.Some? ==> st.base.value == disk)
  }

  lemma NextReadsFrom(st: Store, ev: Event, disk: Slots)
    requires WritesOk(st) && ReadFrom(st, disk)
    ensures ReadFrom(Next(st, ev), disk)
  {
  }

  /** Until the read lands the file is as it was found, so what the read returns is that file. */
  lemma {:induction false} FileWaitsForTheRead(disk: Slots, writable: bool, evs: seq<Event>)
    ensures ReadFrom(Run(Fresh(disk, writable), evs), disk)
  {
    if evs != [] {
      var n := |evs| - 1;
      FileWaitsForTheRead(disk, writable, evs[..n]);
      FreshIsOk(disk, writable);
      RunKeepsOk(Fresh(disk, writable), evs[..n]);
      NextReadsFrom(Run(Fresh(disk, writable), evs[..n]), evs[n], disk);
    }
  }

  lemma FreshIsOk(disk: Slots, writable: bool)
    ensures Ok(Fresh(disk, writable))
  {
  }

  /** In every run, whatever the order of edits, the read, callbacks and write completions: at most one
      write is under way and none is issued before the merge; and once all is quiet after a successful
      write, the file holds exactly the page's slots. */
  lemma QuietFileIsTheSlots(disk: Slots, evs: seq<Event>)
    ensures var st := Run(Fresh(disk, true), evs);
            && |st.flying| <= 1
            && (!st.loaded ==> st.flying == [] && st.last.None? && st.file == disk)
            && (st.loaded && st.flying == [] && st.waiting == 0 && st.landed && st.early + st.late != [] ==>
                  st.file == st.slots)
  {
    FreshIsOk(disk, true);
    RunKeepsOk(Fresh(disk, true), evs);
    FileWaitsForTheRead(disk, true, evs);
  }

  /** Every edit made, in order; an element without an id makes none. */
  ghost function EditsOf(evs: seq<Event>): seq<Edit> {
    if evs == [] then []
    else
      var n := |evs| - 1;
      EditsOf(evs[..n]) + (if evs[n].Do? && evs[n].edit.id != "" then [evs[n].edit] else [])
  }

  lemma NextRecords(st: Store, ev: Event)
    requires !st.loaded ==> st.late == []
    ensures Next(st, ev).early + Next(st, ev).late
            == st.early + st.late + (if ev.Do? && ev.edit.id != "" then [ev.edit] else [])
  {
    hide Edited, EarlyEdited, Merge;
    if ev.Do? && ev.edit.id != "" && st.loaded {
      assert st.early + (st.late + [ev.edit]) == st.early + st.late + [ev.edit];
    }
  }

  /** The edits recorded as early and late are all those made. */
  lemma {:induction false} EveryEditIsRecorded(disk: Slots, writable: bool, evs: seq<Event>)
    ensures Run(Fresh(disk, writable), evs).early + Run(Fresh(disk, writable), evs).late == EditsOf(evs)
  {
    if evs != [] {
      var n := |evs| - 1;
      EveryEditIsRecorded(disk, writable, evs[..n]);
      FreshIsOk(disk, writable);
      RunKeepsOk(Fresh(disk, writable), evs[..n]);
      NextRecords(Run(Fresh(disk, writable), evs[..n]), evs[n]);
      hide Next;
    }
  }

  /** End to end: the quiet file is the original sidecar with every edit applied in order, as long as
      no slot is of the one kind whose old image the merge brings back. */
  lemma QuietFileHasEveryEdit(disk: Slots, evs: seq<Event>)
    requires var st := Run(Fresh(disk, true), evs);
             && st.base.Some? && st.loaded && st.flying == [] && st.waiting == 0 && st.landed
             && st.early + st.late != []
             && Genuine(st.early) && forall id :: !Resurrects(disk, st.early, id)
    ensures var st := Run(Fresh(disk, true), evs);
            st.file == LateRun(disk, EditsOf(evs))
  {
    EveryEditIsRecorded(disk, true, evs);
    var st := Run(Fresh(disk, true), evs);
    QuietFileIsTheSlots(disk, evs);
    FileWaitsForTheRead(disk, true, evs);
    FreshIsOk(disk, true);
    RunKeepsOk(Fresh(disk, true), evs);
    HydrationIsTransparent(disk, st.early);
    LateRunSplits(disk, st.early, st.late);
  }

  /** The slots of early edits are those edits over an empty store. */
  lemma {:induction false} EarlySlotsAreEdits(es: seq<Edit>)
    ensures EarlyRun(es).slots == LateRun(map[], es)
  {
    if es != [] {
      EarlySlotsAreEdits(es[..|es| - 1]);
    }
  }

  /** Where there is no sidecar, or it cannot be read, the quiet file is every edit in order over an empty
      store, early ones included. */
  lemma QuietFileWithoutSidecar(disk: Slots, evs: seq<Event>)
    requires var st := Run(Fresh(disk, true), evs);
             && st.base.None? && st.loaded && st.flying == [] && st.waiting == 0 && st.landed
             && st.early + st.late != []
    ensures var st := Run(Fresh(disk, true), evs);
            st.slots == st.file == LateRun(map[], EditsOf(evs))
  {
    EveryEditIsRecorded(disk, true, evs);
    var st := Run(Fresh(disk, true), evs);
    QuietFileIsTheSlots(disk, evs);
    FreshIsOk(disk, true);
    RunKeepsOk(Fresh(disk, true), evs);
    EarlySlotsAreEdits(st.early);
    LateRunSplits(map[], st.early, st.late);
  }

  lemma {:induction false} LateRunSplits(disk: Slots, a: seq<Edit>, b: seq<Edit>)
    ensures LateRun(disk, a + b) == LateRun(LateRun(disk, a), b)
  {
    if b == [] {
      assert a + b == a;
    } else {
      var n := |b| - 1;
      assert (a + b)[..|a| + n] == a + b[..n];
      LateRunSplits(disk, a, b[..n]);
    }
  }

  /** It does become quiet: with no callback due, two successful completions settle everything. */
  lemma TwoLandingsSettle(st: Store)
    requires Ok(st) && st.writable && st.loaded && st.waiting == 0 && st.saving && st.early + st.late != []
    ensures var settled := Next(Next(st, Landed(0, true)), Landed(0, true));
            settled.flying == [] && !settled.saving && settled.file == settled.slots == st.slots
  {
    hide HistoryOk;
    var once := Next(st, Landed(0, true));
    NextKeepsOk(st, Landed(0, true));
    LandingLeaves(st);
    if once.saving { LandingLeaves(once); }
    NextKeepsOk(once, Landed(0, true));
    hide Next, AfterSave, AfterLanding;
  }

  /** A successful completion puts the write in the file and, if more was owed, starts the next one with
      the slots of that moment. */
  lemma LandingLeaves(st: Store)
    requires WritesOk(st) && st.saving && st.writable
    ensures var after := Next(st, Landed(0, true));
            && after.file == st.flying[0] && after.landed && after.slots == st.slots && !after.saveDirty
            && after.loaded == st.loaded && after.waiting == st.waiting && after.writable == st.writable
            && after.early == st.early && after.late == st.late
            && (if st.saveDirty then after.saving && after.flying == [st.slots] else !after.saving && after.flying == [])
  {
  }

  // ---- a slow encode against newer drops and clears ----

  /** One slot element: its generation, the encodes under way and what it shows. */
  datatype Ingest = Ingest(gen: nat, encoding: map<nat, string>, shown: Option<string>)

  datatype Gesture =
    | Drop(url: string)     // an accepted file; its encode starts
    | Encoded(g: nat)       // the encode of generation `g` finishes
    | EncodeFails(g: nat)
    | Remove

  function AfterGesture(i: Ingest, e: Gesture): Ingest {
    match e
    case Drop(url) => i.(gen := i.gen + 1, encoding := i.encoding[i.gen + 1 := url])
    case Encoded(g) =>
      if g !in i.encoding then i
      else i.(encoding := i.encoding - {g}, shown := if g == i.gen then Some(i.encoding[g]) else i.shown)
    case EncodeFails(g) => i.(encoding := i.encoding - {g})
    case Remove => i.(gen := i.gen + 1, shown := None)
  }

  ghost function Gestures(): (Ingest, Gesture) -> Ingest {
    (i, e) => AfterGesture(i, e)
  }

  predicate OnlyEncodes(es: seq<Gesture>) {
    forall k :: 0 <= k < |es| ==> es[k].Encoded? || es[k].EncodeFails?
  }

  ghost predicate IngestOk(i: Ingest) {
    forall g :: g in i.encoding ==> g <= i.gen
  }

  lemma {:induction false} GenerationsGrow(i: Ingest, es: seq<Gesture>)
    requires IngestOk(i)
    ensures IngestOk(Fold(Gestures(), i, es))
  {
    if es != [] {
      GenerationsGrow(i, es[..|es| - 1]);
    }
  }

  /** While only encodes finish or fail, the slot shows the latest drop if its encode has finished, and
      otherwise what it showed before; no older encode ever comes through. */
  lemma {:induction false} LateEncodes(i: Ingest, es: seq<Gesture>)
    requires IngestOk(i) && OnlyEncodes(es)
    ensures var after := Fold(Gestures(), i, es);
            && after.gen == i.gen
            && after.encoding.Keys <= i.encoding.Keys
            && (forall g :: g in after.encoding ==> after.encoding[g] == i.encoding[g])
            && (after.shown == i.shown || (i.gen in i.encoding && after.shown == Some(i.encoding[i.gen])))
  {
    if es != [] {
      LateEncodes(i, es[..|es| - 1]);
    }
  }

  /** After a removal nothing shows, however many encodes of earlier drops finish afterwards. */
  lemma RemovalSticks(i: Ingest, es: seq<Gesture>)
    requires IngestOk(i) && OnlyEncodes(es)
    ensures Fold(Gestures(), AfterGesture(i, Remove), es).shown == None
  {
    LateEncodes(AfterGesture(i, Remove), es);
  }

  /** After a drop whose encode finishes, that drop shows, whatever older encodes do before or after. */
  lemma NewestDropWins(i: Ingest, url: string, before: seq<Gesture>, after: seq<Gesture>)
    requires IngestOk(i) && OnlyEncodes(before) && OnlyEncodes(after)
    requires i.gen + 1 in Fold(Gestures(), AfterGesture(i, Drop(url)), before).encoding
    ensures Fold(Gestures(), AfterGesture(i, Drop(url)), before + [Encoded(i.gen + 1)] + after).shown == Some(url)
  {
    var start := AfterGesture(i, Drop(url));
    LateEncodes(start, before);
    GenerationsGrow(start, before);
    var done := before + [Encoded(i.gen + 1)];
    assert done[..|before|] == before;
    var mid := Fold(Gestures(), start, done);
    assert mid == AfterGesture(Fold(Gestures(), start, before), Encoded(i.gen + 1));
    LateEncodes(mid, after);
    FoldSplits(Gestures(), start, done, after);
  }
}
