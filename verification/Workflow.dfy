/** The configurable invoice workflow of one organization: its steps, the lookups ordered by
    position, provisioning, and what adding, editing and reordering steps keep. */
module Workflow {
  import opened Wrappers
  import opened Reordering

  /** Slugs; the six provisioned ones and the reserved "void" are told apart from custom slugs. */
  datatype Code = DirectorFinanceReview | AuditReview | MdReview | AccountsReview | Approved | Paid
                | Void | Custom(slug: string)

  datatype Role = Admin | Operations | Finance | Viewer

  datatype Step = Step(code: Code, title: string, position: nat, active: bool,
                       notify: bool, roles: seq<Role>,
                       isPaid: bool, isTerminal: bool, isProtected: bool)

  /** The organization's rows of the step table, by primary key. */
  type Steps = map<Id, Step>

  function DefaultCode(i: nat): Code
    requires i < 6
  {
    match i
    case 0 => DirectorFinanceReview
    case 1 => AuditReview
    case 2 => MdReview
    case 3 => AccountsReview
    case 4 => Approved
    case _ => Paid
  }

  function DefaultTitle(i: nat): string
    requires i < 6
  {
    match i
    case 0 => "Pending Director of Finance Review"
    case 1 => "Pending Audit Review"
    case 2 => "Pending MD Review"
    case 3 => "Pending Accounts Review"
    case 4 => "Approved"
    case _ => "Paid"
  }

  function DefaultStep(i: nat): Step
    requires i < 6
  {
    Step(DefaultCode(i), DefaultTitle(i), 10 * (i + 1), true,
         i != 5, if i != 5 then [Admin, Finance] else [],
         i == 5, i == 5, i == 5)
  }

  /** A step the system may put an unpaid invoice on. */
  predicate Ordinary(s: Step) {
    s.active && !s.isPaid && !s.isTerminal
  }

  function PositionColumn(steps: Steps): (r: Column)
    ensures r.Keys == steps.Keys
    ensures forall id :: id in steps ==> r[id] == steps[id].position
  {
    map id | id in steps :: steps[id].position
  }

  ghost predicate UniqueCodes(steps: Steps) {
    forall a, b :: a in steps && b in steps && a != b ==> steps[a].code != steps[b].code
  }

  predicate HasCode(steps: Steps, code: Code) {
    exists id :: id in steps && steps[id].code == code
  }

  ghost predicate DefaultsPresent(steps: Steps) {
    forall i :: 0 <= i < 6 ==> HasCode(steps, DefaultCode(i))
  }

  /** Paid, terminal and protected are one and the same step, and it is active. */
  ghost predicate PaidIsSystemOwned(steps: Steps) {
    forall id :: id in steps ==>
      && (steps[id].isPaid <==> steps[id].code == Paid)
      && (steps[id].isPaid <==> steps[id].isTerminal)
      && (steps[id].isPaid <==> steps[id].isProtected)
      && (steps[id].isPaid ==> steps[id].active)
  }

  function OrdinaryIds(steps: Steps): (r: set<Id>)
    ensures forall id :: id in r <==> id in steps && Ordinary(steps[id])
  {
    set id | id in steps && Ordinary(steps[id])
  }

  function PaidIds(steps: Steps): (r: set<Id>)
    ensures forall id :: id in r <==> id in steps && steps[id].isPaid
  {
    set id | id in steps && steps[id].isPaid
  }

  /** What every reachable workflow satisfies. */
  ghost predicate WorkflowOk(steps: Steps) {
    && Exact(PositionColumn(steps))
    && UniqueCodes(steps)
    && DefaultsPresent(steps)
    && PaidIsSystemOwned(steps)
    && OrdinaryIds(steps) != {}
  }

  // ---- lookups ordered by position ----

  lemma {:induction false} LeastExists(column: Column, ids: set<Id>)
    requires ids <= column.Keys && ids != {}
    ensures exists id :: id in ids && forall other :: other in ids ==> column[id] <= column[other]
    decreases |ids|
  {
    var x :| x in ids;
    var rest := ids - {x};
    assert ids == rest + {x};
    if rest == {} {
      assert forall other :: other in ids ==> column[x] <= column[other];
    } else {
      LeastExists(column, rest);
      var y :| y in rest && forall other :: other in rest ==> column[y] <= column[other];
      var z := if column[x] <= column[y] then x else y;
      assert forall other :: other in ids ==> column[z] <= column[other];
    }
  }

  /** The first of the chosen rows by position, as `.order_by("position").first()`. */
  function First(column: Column, ids: set<Id>): (r: Option<Id>)
    requires ids <= column.Keys && Injective(column)
    ensures r.None? <==> ids == {}
    ensures r.Some? ==> r.value in ids
    ensures r.Some? ==> forall other :: other in ids ==> column[r.value] <= column[other]
  {
    if ids == {} then None
    else
      LeastExists(column, ids);
      var id :| id in ids && forall other :: other in ids ==> column[id] <= column[other];
      Some(id)
  }

  function ActiveDefaultStep(steps: Steps): (r: Option<Id>)
    requires Injective(PositionColumn(steps))
    ensures r.Some? ==> r.value in steps && Ordinary(steps[r.value])
  {
    First(PositionColumn(steps), OrdinaryIds(steps))
  }

  function PaidStep(steps: Steps): (r: Option<Id>)
    requires Injective(PositionColumn(steps))
    ensures r.Some? ==> r.value in steps && steps[r.value].isPaid
  {
    First(PositionColumn(steps), PaidIds(steps))
  }

  /** In a reachable workflow both lookups succeed and the Paid step is the only paid one. */
  lemma LookupsSucceed(steps: Steps)
    requires WorkflowOk(steps)
    ensures Injective(PositionColumn(steps))
    ensures ActiveDefaultStep(steps).Some? && PaidStep(steps).Some?
    ensures forall id :: id in steps && steps[id].isPaid ==> PaidStep(steps) == Some(id)
  {
    ExactMeaning(PositionColumn(steps));
    assert HasCode(steps, DefaultCode(5));
    var p :| p in steps && steps[p].code == Paid;
    assert p in PaidIds(steps);
  }

  // ---- provisioning ----

  /** `ensure_default_steps` from its `i`-th default on: insert each default whose code is absent.
      None is a primary-key or position collision, which the database refuses. */
  ghost function Provisioned(steps: Steps, ids: seq<Id>, i: nat): (r: Option<Steps>)
    requires |ids| == 6 && i <= 6
    decreases 6 - i
  {
    if i == 6 then Some(steps)
    else if HasCode(steps, DefaultCode(i)) then Provisioned(steps, ids, i + 1)
    else if ids[i] in steps || DefaultStep(i).position in PositionColumn(steps).Values then None
    else Provisioned(steps[ids[i] := DefaultStep(i)], ids, i + 1)
  }

  /** On a provisioned organization `ensure_default_steps` changes nothing, whatever the ids drawn. */
  lemma {:induction false} ProvisioningIsIdempotent(steps: Steps, ids: seq<Id>, i: nat)
    requires |ids| == 6 && i <= 6
    requires DefaultsPresent(steps)
    ensures Provisioned(steps, ids, i) == Some(steps)
    decreases 6 - i
  {
  }

  /** The first `n` provisioned rows. */
  ghost function FirstDefaults(ids: seq<Id>, n: nat): Steps
    requires n <= 6 <= |ids|
  {
    if n == 0 then map[] else FirstDefaults(ids, n - 1)[ids[n - 1] := DefaultStep(n - 1)]
  }

  /** `steps` holds exactly the first `n` default rows, under the keys `ids`. */
  ghost predicate IsDefaults(steps: Steps, ids: seq<Id>, n: nat)
    requires n <= 6 <= |ids|
  {
    && (forall i :: 0 <= i < n ==> ids[i] in steps && steps[ids[i]] == DefaultStep(i))
    && (forall id :: id in steps ==> exists i :: 0 <= i < n && ids[i] == id)
  }

  lemma {:induction false} DefaultRows(ids: seq<Id>, n: nat)
    requires n <= 6 <= |ids| && Distinct(ids)
    ensures IsDefaults(FirstDefaults(ids, n), ids, n)
  {
    hide DefaultStep;
    if n > 0 {
      DefaultRows(ids, n - 1);
      forall id | id in FirstDefaults(ids, n) ensures exists i :: 0 <= i < n && ids[i] == id {
        if id != ids[n - 1] {
          var i :| 0 <= i < n - 1 && ids[i] == id;
        }
      }
    }
  }

  lemma DefaultsDiffer(k: nat, i: nat)
    requires k < i < 6
    ensures DefaultStep(k).code != DefaultCode(i) && DefaultStep(k).position != DefaultStep(i).position
  {
  }

  lemma NextDefaultIsNew(ids: seq<Id>, i: nat)
    requires |ids| == 6 && i < 6 && Distinct(ids)
    ensures var have := FirstDefaults(ids, i);
            && !HasCode(have, DefaultCode(i)) && ids[i] !in have
            && DefaultStep(i).position !in PositionColumn(have).Values
  {
    DefaultRows(ids, i);
    var have := FirstDefaults(ids, i);
    hide FirstDefaults, DefaultStep, DefaultCode;
    forall id | id in have
      ensures have[id].code != DefaultCode(i) && id != ids[i] && have[id].position != DefaultStep(i).position
    {
      var k :| 0 <= k < i && ids[k] == id;
      DefaultsDiffer(k, i);
    }
  }

  lemma {:induction false} ProvisioningStep(ids: seq<Id>, i: nat)
    requires |ids| == 6 && i <= 6 && Distinct(ids)
    ensures Provisioned(FirstDefaults(ids, i), ids, i) == Some(FirstDefaults(ids, 6))
    decreases 6 - i
  {
    if i < 6 {
      NextDefaultIsNew(ids, i);
      ProvisioningStep(ids, i + 1);
      hide PositionColumn, DefaultStep, DefaultCode;
    }
  }

  lemma DefaultsAreRanked(steps: Steps, ids: seq<Id>)
    requires |ids| == 6 && Distinct(ids) && IsDefaults(steps, ids, 6)
    ensures Exact(PositionColumn(steps))
  {
    assert Lists(PositionColumn(steps), ids);
    assert Ranked(PositionColumn(steps), ids);
  }

  lemma DefaultCodesDiffer(i: nat, j: nat)
    requires i < j < 6
    ensures DefaultCode(i) != DefaultCode(j)
  {
  }

  lemma DefaultsHaveUniqueCodes(steps: Steps, ids: seq<Id>)
    requires |ids| == 6 && Distinct(ids) && IsDefaults(steps, ids, 6)
    ensures UniqueCodes(steps)
  {
    forall a, b | a in steps && b in steps && a != b ensures steps[a].code != steps[b].code {
      var i :| 0 <= i < 6 && ids[i] == a;
      var j :| 0 <= j < 6 && ids[j] == b;
      if i < j { DefaultCodesDiffer(i, j); } else { DefaultCodesDiffer(j, i); }
    }
  }

  lemma DefaultsAreCoded(steps: Steps, ids: seq<Id>)
    requires |ids| == 6 && IsDefaults(steps, ids, 6)
    ensures DefaultsPresent(steps) && PaidIsSystemOwned(steps)
  {
    forall i | 0 <= i < 6 ensures HasCode(steps, DefaultCode(i)) {
      assert steps[ids[i]].code == DefaultCode(i);
    }
    forall id | id in steps ensures exists i :: 0 <= i < 6 && ids[i] == id && steps[id] == DefaultStep(i) {
      var i :| 0 <= i < 6 && ids[i] == id;
    }
  }

  /** A new organization gets exactly the six defaults, and they form a sound workflow. */
  lemma ProvisioningFromNothing(ids: seq<Id>)
    requires |ids| == 6 && Distinct(ids)
    ensures Provisioned(map[], ids, 0) == Some(FirstDefaults(ids, 6))
    ensures WorkflowOk(FirstDefaults(ids, 6))
  {
    ProvisioningStep(ids, 0);
    DefaultRows(ids, 6);
    DefaultsAreRanked(FirstDefaults(ids, 6), ids);
    DefaultsHaveUniqueCodes(FirstDefaults(ids, 6), ids);
    DefaultsAreCoded(FirstDefaults(ids, 6), ids);
    assert ids[0] in OrdinaryIds(FirstDefaults(ids, 6));
  }

  // ---- adding and editing a step ----

  ghost predicate Greatest(s: set<nat>, m: nat) {
    m in s && forall p :: p in s ==> p <= m
  }

  lemma {:induction false} GreatestExists(s: set<nat>) returns (m: nat)
    requires s != {}
    ensures Greatest(s, m)
    decreases |s|
  {
    m :| m in s;
    var rest := s - {m};
    if rest != {} {
      var y := GreatestExists(rest);
      Larger(s, m, y);
      if m <= y { m := y; }
    } else {
      assert s == {m};
    }
  }

  lemma Larger(s: set<nat>, x: nat, y: nat)
    requires x in s && Greatest(s - {x}, y)
    ensures Greatest(s, if x <= y then y else x)
  {
    forall p | p in s ensures p <= x || p <= y { assert p == x || p in s - {x}; }
  }

  lemma SomeGreatest(s: set<nat>)
    requires s != {}
    ensures exists m :: m in s && forall p :: p in s ==> p <= m
  {
    var m := GreatestExists(s);
  }

  /** `aggregate(Max("position"))`, with `or 0`. */
  function MaxPosition(column: Column): (m: nat)
    ensures column.Values == {} ==> m == 0
    ensures column.Values != {} ==> m in column.Values
    ensures forall p :: p in column.Values ==> p <= m
  {
    if column.Values == {} then 0
    else
      SomeGreatest(column.Values);
      var m :| m in column.Values && forall p :: p in column.Values ==> p <= m;
      m
  }

  lemma MaxIsLast(column: Column)
    requires Exact(column)
    ensures MaxPosition(column) == 10 * |column|
  {
    var ids :| Ranked(column, ids);
    RankedBounds(column, ids);
    if ids == [] {
      assert column == map[];
    } else {
      assert column[ids[|ids| - 1]] in column.Values;
      var id :| id in column && column[id] == MaxPosition(column);
    }
  }

  function NewStep(steps: Steps, code: Code, title: string, active: bool, notify: bool,
                   roles: seq<Role>): Step
  {
    Step(code, title, MaxPosition(PositionColumn(steps)) + 10, active, notify, roles, false, false, false)
  }

  lemma AddingKeepsCodes(steps: Steps, id: Id, row: Step)
    requires UniqueCodes(steps) && DefaultsPresent(steps)
    requires id !in steps && !HasCode(steps, row.code)
    ensures UniqueCodes(steps[id := row]) && DefaultsPresent(steps[id := row])
  {
    var after := steps[id := row];
    forall i | 0 <= i < 6 ensures HasCode(after, DefaultCode(i)) {
      assert HasCode(steps, DefaultCode(i));
      var d :| d in steps && steps[d].code == DefaultCode(i);
      assert after[d].code == DefaultCode(i);
    }
  }

  lemma AddingKeepsPositions(steps: Steps, id: Id, row: Step)
    requires Exact(PositionColumn(steps)) && id !in steps
    requires row.position == MaxPosition(PositionColumn(steps)) + 10
    ensures row.position == 10 * |steps| + 10
    ensures Exact(PositionColumn(steps[id := row]))
  {
    var column := PositionColumn(steps);
    assert |column| == |steps| by { assert |column.Keys| == |steps.Keys|; }
    MaxIsLast(column);
    ExactAppend(column, id);
    assert PositionColumn(steps[id := row]) == column[id := row.position];
  }

  lemma AddingKeepsFlags(steps: Steps, id: Id, row: Step)
    requires PaidIsSystemOwned(steps) && OrdinaryIds(steps) != {} && id !in steps
    requires row.code != Paid && !row.isPaid && !row.isTerminal && !row.isProtected
    ensures PaidIsSystemOwned(steps[id := row]) && OrdinaryIds(steps[id := row]) != {}
  {
  }

  /** A created step goes after every other one, at 10(n+1), and keeps the workflow sound. */
  lemma AddingKeepsWorkflow(steps: Steps, id: Id, row: Step)
    requires WorkflowOk(steps) && id !in steps && row.code != Paid && !HasCode(steps, row.code)
    requires row == NewStep(steps, row.code, row.title, row.active, row.notify, row.roles)
    ensures row.position == 10 * |steps| + 10
    ensures WorkflowOk(steps[id := row])
  {
    AddingKeepsPositions(steps, id, row);
    AddingKeepsCodes(steps, id, row);
    AddingKeepsFlags(steps, id, row);
  }

  /** Two tables that agree on code, flags other than `active`, and position. */
  ghost predicate SameSkeleton(a: Steps, b: Steps) {
    && a.Keys == b.Keys
    && forall id :: id in a ==>
         && a[id].code == b[id].code
         && a[id].isPaid == b[id].isPaid
         && a[id].isTerminal == b[id].isTerminal
         && a[id].isProtected == b[id].isProtected
  }

  lemma SkeletonKeepsCodes(a: Steps, b: Steps)
    requires SameSkeleton(a, b)
    ensures UniqueCodes(a) ==> UniqueCodes(b)
    ensures DefaultsPresent(a) ==> DefaultsPresent(b)
  {
  }

  /** Rewriting a step's editable columns keeps the workflow sound as long as the Paid step stays
      active and some ordinary step is left. */
  lemma EditingKeepsWorkflow(steps: Steps, id: Id, row: Step)
    requires WorkflowOk(steps) && id in steps
    requires row == steps[id].(title := row.title, active := row.active, notify := row.notify, roles := row.roles)
    requires steps[id].isProtected ==> row.active
    requires OrdinaryIds(steps[id := row]) != {}
    ensures WorkflowOk(steps[id := row])
  {
    var after := steps[id := row];
    assert SameSkeleton(steps, after);
    SkeletonKeepsCodes(steps, after);
    SkeletonKeepsPaid(steps, after, id);
    assert PositionColumn(after) == PositionColumn(steps);
  }

  lemma SkeletonKeepsPaid(a: Steps, b: Steps, id: Id)
    requires SameSkeleton(a, b) && PaidIsSystemOwned(a) && id in a
    requires forall other :: other in a && other != id ==> b[other] == a[other]
    requires a[id].isProtected ==> b[id].active
    ensures PaidIsSystemOwned(b)
  {
  }

  // ---- reordering ----

  /** The table with its position column replaced. */
  function WithPositions(steps: Steps, column: Column): (r: Steps)
    requires column.Keys == steps.Keys
    ensures r.Keys == steps.Keys
    ensures forall id :: id in steps ==> r[id] == steps[id].(position := column[id])
    ensures PositionColumn(r) == column
  {
    map id | id in steps :: steps[id].(position := column[id])
  }

  /** The active steps in the requested order. */
  function ActiveInOrder(steps: Steps, ids: seq<Id>): (r: seq<Id>)
    requires forall i :: 0 <= i < |ids| ==> ids[i] in steps
    ensures forall i :: 0 <= i < |r| ==> r[i] in steps && steps[r[i]].active
    ensures forall i :: 0 <= i < |ids| && steps[ids[i]].active ==> ids[i] in r
  {
    if ids == [] then []
    else
      var n := |ids| - 1;
      ActiveInOrder(steps, ids[..n]) + (if steps[ids[n]].active then [ids[n]] else [])
  }

  lemma {:induction false} ActiveAreListed(steps: Steps, ids: seq<Id>, i: nat)
    requires forall k :: 0 <= k < |ids| ==> ids[k] in steps
    requires i < |ActiveInOrder(steps, ids)|
    ensures ActiveInOrder(steps, ids)[i] in ids
  {
    var n := |ids| - 1;
    if i < |ActiveInOrder(steps, ids[..n])| {
      ActiveAreListed(steps, ids[..n], i);
    } else {
      assert ids[n] in ids;
    }
  }

  predicate PaidComesLast(steps: Steps, ids: seq<Id>)
    requires forall i :: 0 <= i < |ids| ==> ids[i] in steps
  {
    var active := ActiveInOrder(steps, ids);
    && active != []
    && steps[active[|active| - 1]].isPaid
    && forall i :: 0 <= i < |active| - 1 ==> !steps[active[i]].isPaid
  }

  /** The outcome of an admissible reorder; None is a constraint error, which rolls all writes back. */
  ghost function Reordered(steps: Steps, scan: seq<Id>, ids: seq<Id>): (r: Option<Steps>)
    requires Lists(PositionColumn(steps), scan) && Lists(PositionColumn(steps), ids)
  {
    ReorderIsExact(PositionColumn(steps), scan, ids);
    if NeverCollides(PositionColumn(steps), ReorderWrites(PositionColumn(steps), scan, ids))
    then Some(WithPositions(steps, Rewritten(PositionColumn(steps), scan, ids)))
    else None
  }

  /** A completed reorder is the requested permutation: the k-th listed step sits at 10k, no other
      column changes, and the workflow stays sound. */
  lemma ReorderingKeepsWorkflow(steps: Steps, scan: seq<Id>, ids: seq<Id>, after: Steps)
    requires WorkflowOk(steps)
    requires Lists(PositionColumn(steps), scan) && Lists(PositionColumn(steps), ids)
    requires Reordered(steps, scan, ids) == Some(after)
    ensures WorkflowOk(after)
    ensures after.Keys == steps.Keys
    ensures forall k :: 0 <= k < |ids| ==> ids[k] in after && after[ids[k]].position == 10 * (k + 1)
    ensures forall id :: id in steps ==> after[id] == steps[id].(position := after[id].position)
  {
    ReorderIsExact(PositionColumn(steps), scan, ids);
    SkeletonKeepsCodes(steps, after);
    var o :| o in OrdinaryIds(steps);
    assert o in OrdinaryIds(after);
  }

  /** `k` is the Paid step's place and every other active step is listed before it. */
  ghost predicate PaidIsAt(steps: Steps, ids: seq<Id>, k: int)
    requires forall i :: 0 <= i < |ids| ==> ids[i] in steps
  {
    && 0 <= k < |ids| && steps[ids[k]].active && steps[ids[k]].isPaid
    && forall j :: 0 <= j < |ids| && j != k && steps[ids[j]].active ==> j < k && !steps[ids[j]].isPaid
  }

  /** What the check on the active steps means for list positions. */
  lemma {:induction false} PaidListedLast(steps: Steps, ids: seq<Id>)
    requires forall i :: 0 <= i < |ids| ==> ids[i] in steps
    requires PaidComesLast(steps, ids)
    ensures exists k :: PaidIsAt(steps, ids, k)
  {
    var n := |ids| - 1;
    if steps[ids[n]].active {
      var before := ActiveInOrder(steps, ids[..n]);
      assert ActiveInOrder(steps, ids) == before + [ids[n]];
      forall j | 0 <= j < n && steps[ids[j]].active ensures !steps[ids[j]].isPaid {
        assert ids[..n][j] in before;
        var i :| 0 <= i < |before| && before[i] == ids[j];
        assert ActiveInOrder(steps, ids)[i] == ids[j];
      }
      assert PaidIsAt(steps, ids, n);
    } else {
      assert ActiveInOrder(steps, ids) == ActiveInOrder(steps, ids[..n]);
      PaidListedLast(steps, ids[..n]);
      var k :| PaidIsAt(steps, ids[..n], k);
      assert ids[..n][k] == ids[k];
      assert forall j :: 0 <= j < n ==> ids[..n][j] == ids[j];
      assert PaidIsAt(steps, ids, k);
    }
  }

  /** After an accepted reorder Paid stands after every other active step. */
  lemma PaidStandsLast(steps: Steps, scan: seq<Id>, ids: seq<Id>, after: Steps, p: Id, a: Id)
    requires PaidIsSystemOwned(steps)
    requires Lists(PositionColumn(steps), scan) && Lists(PositionColumn(steps), ids)
    requires PaidComesLast(steps, ids) && Reordered(steps, scan, ids) == Some(after)
    requires p in after && a in after && after[p].isPaid && after[a].active && a != p
    ensures after[a].position < after[p].position
  {
    ReorderIsExact(PositionColumn(steps), scan, ids);
    PaidListedLast(steps, ids);
    var k :| PaidIsAt(steps, ids, k);
    var i :| 0 <= i < |ids| && ids[i] == p;
    var j :| 0 <= j < |ids| && ids[j] == a;
    assert steps[p].active;
  }

  /** Every reorder of a sound workflow goes through, whatever row order the database shifts in,
      if and only if the organization has at most a thousand steps. */
  lemma ThousandStepLimit(steps: Steps, ids: seq<Id>)
    requires WorkflowOk(steps) && Lists(PositionColumn(steps), ids)
    ensures (forall scan :: Lists(PositionColumn(steps), scan) ==> Reordered(steps, scan, ids).Some?)
            <==> |steps| <= 1000
  {
    var column := PositionColumn(steps);
    assert |column| == |steps| by { assert |column.Keys| == |steps.Keys|; }
    ThousandRowLimit(column, ids);
    if forall scan :: Lists(column, scan) ==> Reordered(steps, scan, ids).Some? {
      forall scan | Lists(column, scan) ensures NeverCollides(column, ReorderWrites(column, scan, ids)) {
        assert Reordered(steps, scan, ids).Some?;
      }
    }
  }
}
