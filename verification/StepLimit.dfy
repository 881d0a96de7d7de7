/** The reorder limit is within reach: a run of ordinary requests ends in a workflow of 1001 steps whose
    reorder the database refuses. */
module StepLimit {
  import opened Wrappers
  import opened Reordering
  import opened Workflow
  import opened Billing
  import opened BillingRuns
  import opened Runs

  /** The key and slug of the k-th custom step: longer than `n` and than any before it. */
  function Mark(n: nat, k: nat): (s: string)
    ensures |s| == n + k
  {
    seq(n + k, _ => 'x')
  }

  function Creation(n: nat, k: nat): Request {
    CreateStep(Mark(n, k), Custom(Mark(n, k)), "", true, false, [])
  }

  function Creations(n: nat, k: nat): seq<Request> {
    if k == 0 then [] else Creations(n, k - 1) + [Creation(n, k - 1)]
  }

  /** Six distinct primary keys, all shorter than `n`. */
  ghost predicate Keys(keys: seq<Id>, n: nat) {
    |keys| == 6 && Distinct(keys) && n > 0 && forall i :: 0 <= i < 6 ==> |keys[i]| < n
  }

  function NextRow(steps: Steps, n: nat, k: nat): Step {
    NewStep(steps, Custom(Mark(n, k)), "", true, false, [])
  }

  /** The provisioned steps and the first `k` custom ones. */
  ghost function Grown(keys: seq<Id>, n: nat, k: nat): Steps
    requires Keys(keys, n)
  {
    if k == 0 then FirstDefaults(keys, 6)
    else Grown(keys, n, k - 1)[Mark(n, k - 1) := NextRow(Grown(keys, n, k - 1), n, k - 1)]
  }

  /** No key or slug in the table is as long as `m`. */
  ghost predicate Shorter(steps: Steps, m: nat) {
    forall id :: id in steps ==> |id| < m && (steps[id].code.Custom? ==> |steps[id].code.slug| < m)
  }

  lemma DefaultCodeIsNoSlug(i: nat)
    requires i < 6
    ensures !DefaultStep(i).code.Custom?
  {
  }

  lemma ShortDefaults(steps: Steps, keys: seq<Id>, n: nat)
    requires Keys(keys, n) && IsDefaults(steps, keys, 6)
    ensures Shorter(steps, n)
  {
    hide DefaultStep;
    forall id | id in steps ensures |id| < n && !steps[id].code.Custom? {
      var i :| 0 <= i < 6 && keys[i] == id;
      DefaultCodeIsNoSlug(i);
    }
  }

  lemma CountDefaults(steps: Steps, keys: seq<Id>)
    requires |keys| == 6 && Distinct(keys) && IsDefaults(steps, keys, 6)
    ensures |steps| == 6
  {
    assert Lists(PositionColumn(steps), keys);
    ListedCount(PositionColumn(steps), keys);
    assert |PositionColumn(steps).Keys| == |steps.Keys|;
  }

  lemma {:induction false} GrownIsShort(keys: seq<Id>, n: nat, k: nat)
    requires Keys(keys, n)
    ensures Shorter(Grown(keys, n, k), n + k)
  {
    if k == 0 {
      DefaultRows(keys, 6);
      hide FirstDefaults, IsDefaults, Shorter;
      ShortDefaults(Grown(keys, n, 0), keys, n);
    } else {
      GrownIsShort(keys, n, k - 1);
      hide MaxPosition, PositionColumn;
    }
  }

  lemma NextIsFree(keys: seq<Id>, n: nat, k: nat)
    requires Keys(keys, n)
    ensures Mark(n, k) !in Grown(keys, n, k) && !HasCode(Grown(keys, n, k), Custom(Mark(n, k)))
  {
    GrownIsShort(keys, n, k);
    hide Grown;
  }

  lemma InsertCount(steps: Steps, id: Id, row: Step)
    requires id !in steps
    ensures |steps[id := row]| == |steps| + 1
  {
    assert steps[id := row].Keys == steps.Keys + {id};
  }

  lemma BaseCount(keys: seq<Id>, n: nat)
    requires Keys(keys, n)
    ensures |Grown(keys, n, 0)| == 6
  {
    DefaultRows(keys, 6);
    hide FirstDefaults, IsDefaults;
    CountDefaults(Grown(keys, n, 0), keys);
  }

  lemma {:induction false} GrownCount(keys: seq<Id>, n: nat, k: nat)
    requires Keys(keys, n)
    ensures |Grown(keys, n, k)| == 6 + k
  {
    if k == 0 {
      BaseCount(keys, n);
    } else {
      GrownCount(keys, n, k - 1);
      NextIsFree(keys, n, k - 1);
      hide NextRow, HasCode, Mark, FirstDefaults;
      InsertCount(Grown(keys, n, k - 1), Mark(n, k - 1), NextRow(Grown(keys, n, k - 1), n, k - 1));
    }
  }

  lemma {:induction false} GrownIsSound(keys: seq<Id>, n: nat, k: nat)
    requires Keys(keys, n)
    ensures WorkflowOk(Grown(keys, n, k))
  {
    if k == 0 {
      ProvisioningFromNothing(keys);
    } else {
      GrownIsSound(keys, n, k - 1);
      NextIsFree(keys, n, k - 1);
      hide WorkflowOk, HasCode, MaxPosition, PositionColumn;
      AddingKeepsWorkflow(Grown(keys, n, k - 1), Mark(n, k - 1), NextRow(Grown(keys, n, k - 1), n, k - 1));
    }
  }

  lemma CreationPasses(books: Books, keys: seq<Id>, n: nat, k: nat)
    requires Keys(keys, n) && books.steps == Grown(keys, n, k) && k < 2000
    ensures CreateStepCheck(books, Creation(n, k)) == Done
    ensures books.steps[Mark(n, k) := CreatedRow(books, Creation(n, k))] == Grown(keys, n, k + 1)
    ensures Injective(PositionColumn(books.steps))
  {
    GrownIsSound(keys, n, k);
    GrownCount(keys, n, k);
    NextIsFree(keys, n, k);
    ExactMeaning(PositionColumn(books.steps));
    hide WorkflowOk, HasCode, MaxPosition, PositionColumn, Injective;
    AddingKeepsWorkflow(Grown(keys, n, k), Mark(n, k), CreatedRow(books, Creation(n, k)));
  }

  lemma CreationIsAccepted(books: Books, keys: seq<Id>, n: nat, k: nat)
    requires Keys(keys, n) && books.steps == Grown(keys, n, k) && k < 2000
    ensures Next(books, Creation(n, k)).books.steps == Grown(keys, n, k + 1)
  {
    CreationPasses(books, keys, n, k);
    hide Grown, Injective, PositionColumn, CreateStepCheck, CreatedRow;
  }

  lemma RunAppend(books: Books, rs: seq<Request>, r: Request)
    ensures Run(books, rs + [r]) == Next(Run(books, rs), r).books
  {
    assert (rs + [r])[..|rs|] == rs;
    hide Next;
  }

  lemma CreationsGrow(n: nat, k: nat)
    ensures Creations(n, k + 1) == Creations(n, k) + [Creation(n, k)]
  {
  }

  /** After the first `k` creations the workflow is the grown one. */
  ghost predicate Reaches(keys: seq<Id>, n: nat, k: nat)
    requires Keys(keys, n)
  {
    Run(NewBooks(keys), Creations(n, k)).steps == Grown(keys, n, k)
  }

  lemma RunStarts(keys: seq<Id>, n: nat)
    requires Keys(keys, n)
    ensures Reaches(keys, n, 0)
  {
    hide FirstDefaults;
    assert Run(NewBooks(keys), []) == NewBooks(keys);
  }

  lemma RunGrowsOnce(keys: seq<Id>, n: nat, k: nat)
    requires Keys(keys, n) && k < 2000 && Reaches(keys, n, k)
    ensures Reaches(keys, n, k + 1)
  {
    assert |keys| == 6;
    CreationsGrow(n, k);
    hide Run, Next, Creations, Creation, Grown, NewBooks, Distinct, Keys;
    RunAppend(NewBooks(keys), Creations(n, k), Creation(n, k));
    CreationIsAccepted(Run(NewBooks(keys), Creations(n, k)), keys, n, k);
  }

  lemma {:induction false} RunGrows(keys: seq<Id>, n: nat, k: nat)
    requires Keys(keys, n) && k <= 2000
    ensures Reaches(keys, n, k)
    decreases k
  {
    hide *;
    if k == 0 {
      RunStarts(keys, n);
    } else {
      RunGrows(keys, n, k - 1);
      RunGrowsOnce(keys, n, k - 1);
    }
  }

  lemma {:induction false} LengthBound(keys: seq<Id>) returns (n: nat)
    ensures n > 0 && forall i :: 0 <= i < |keys| ==> |keys[i]| < n
  {
    if keys == [] {
      n := 1;
    } else {
      var m := |keys| - 1;
      n := LengthBound(keys[..m]);
      assert forall i :: 0 <= i < m ==> keys[i] == keys[..m][i];
      if |keys[m]| >= n { n := |keys[m]| + 1; }
    }
  }

  // ---- a listing the endpoint admits ----

  lemma {:induction false} Listing(s: set<Id>) returns (l: seq<Id>)
    ensures Distinct(l) && forall x :: x in l <==> x in s
    decreases |s|
  {
    if s == {} {
      l := [];
    } else {
      var x :| x in s;
      var rest := Listing(s - {x});
      l := rest + [x];
      assert l[|rest|] == x;
      forall y | y in s ensures y in l {
        if y != x {
          assert y in rest;
          var i :| 0 <= i < |rest| && rest[i] == y;
          assert l[i] == y;
        }
      }
    }
  }

  lemma PaidAppended(steps: Steps, others: seq<Id>, p: Id)
    requires p in steps && steps[p].isPaid && steps[p].active
    requires forall i :: 0 <= i < |others| ==> others[i] in steps && !steps[others[i]].isPaid
    ensures forall i :: 0 <= i < |others + [p]| ==> (others + [p])[i] in steps
    ensures PaidComesLast(steps, others + [p])
  {
    var ids := others + [p];
    assert ids[..|others|] == others;
    var active := ActiveInOrder(steps, others);
    assert ActiveInOrder(steps, ids) == active + [p];
    forall i | 0 <= i < |active| ensures !steps[active[i]].isPaid {
      ActiveAreListed(steps, others, i);
    }
  }

  /** Every sound workflow can be listed so that the endpoint admits the reorder. */
  lemma AdmittedListing(steps: Steps) returns (ids: seq<Id>)
    requires WorkflowOk(steps)
    ensures ReorderAdmitted(steps, ids)
  {
    LookupsSucceed(steps);
    var p := PaidStep(steps).value;
    var others := Listing(steps.Keys - {p});
    assert forall i :: 0 <= i < |others| ==> others[i] in others;
    PaidAppended(steps, others, p);
    ids := others + [p];
    assert ids[|others|] == p;
    forall id | id in steps ensures id in ids {
      if id != p {
        assert id in others;
        var i :| 0 <= i < |others| && others[i] == id;
        assert ids[i] == id;
      }
    }
    assert Lists(PositionColumn(steps), ids);
  }

  lemma RefusedScan(steps: Steps, ids: seq<Id>) returns (scan: seq<Id>)
    requires WorkflowOk(steps) && |steps| == 1001 && Lists(PositionColumn(steps), ids)
    ensures Lists(PositionColumn(steps), scan) && Reordered(steps, scan, ids).None?
  {
    ThousandStepLimit(steps, ids);
    scan :| Lists(PositionColumn(steps), scan) && Reordered(steps, scan, ids).None?;
  }

  lemma RefusedReorder(books: Books, ids: seq<Id>, scan: seq<Id>)
    requires Injective(PositionColumn(books.steps)) && Lists(PositionColumn(books.steps), scan)
    requires ReorderAdmitted(books.steps, ids) && Reordered(books.steps, scan, ids).None?
    ensures Next(books, Reorder(ids, scan)) == Outcome(books, Broken)
  {
    hide Injective, Lists, Reordered, PaidComesLast, PositionColumn;
  }

  /** For any newly provisioned organization, 995 created steps lead to a state of 1001 in which a
      reorder the endpoint admits ends in an unhandled constraint error for some row order of the bulk
      update. */
  lemma LimitIsReached(keys: seq<Id>) returns (rs: seq<Request>, ids: seq<Id>, scan: seq<Id>)
    requires |keys| == 6 && Distinct(keys)
    ensures var books := Run(NewBooks(keys), rs);
            && |books.steps| == 1001 && ReorderAdmitted(books.steps, ids)
            && Admissible(books, Reorder(ids, scan))
            && Next(books, Reorder(ids, scan)) == Outcome(books, Broken)
  {
    var n := LengthBound(keys);
    rs := Creations(n, 995);
    RunGrows(keys, n, 995);
    GrownIsSound(keys, n, 995);
    GrownCount(keys, n, 995);
    hide *;
    ids, scan := UnluckyReorder(Run(NewBooks(keys), rs));
  }

  lemma UnluckyReorder(books: Books) returns (ids: seq<Id>, scan: seq<Id>)
    requires WorkflowOk(books.steps) && |books.steps| == 1001
    ensures ReorderAdmitted(books.steps, ids) && Admissible(books, Reorder(ids, scan))
    ensures Next(books, Reorder(ids, scan)) == Outcome(books, Broken)
  {
    ids := AdmittedListing(books.steps);
    scan := RefusedScan(books.steps, ids);
    ExactMeaning(PositionColumn(books.steps));
    hide WorkflowOk, Injective, Lists, Reordered, PaidComesLast, PositionColumn, Next;
    RefusedReorder(books, ids, scan);
  }
}
