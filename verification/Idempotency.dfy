/** The idempotent wrapper around System Administrator mutations, for an arbitrary handler that may fail. */
module Idempotency {
  import opened Wrappers
  import opened Runs
  import opened Trimming

  type Id = string

  /** What the request hash covers; the hash is taken as injective. */
  datatype Request = Request(action: string, verb: string, path: string, body: string)

  datatype Record<R> = Record(request: Request, response: Option<R>)

  /** The state the handlers work on, the stored mutation records, and, for the record, the mutations
      that took effect, in order. */
  datatype World<S, R> = World(state: S, records: map<(Id, string), Record<R>>, effects: seq<(Id, string)>)

  datatype Reply<R> = BadKey | Denied | KeyConflict | Stored(response: R) | Fresh(response: R) | Failed

  /** A handler run: the new state and the response, or None for an error. `seed` stands for whatever
      else the handler looks at. */
  type Handler<!S, !R> = (S, Request, nat) -> Option<(S, R)>

  datatype Act<S> =
    | Mutate(actor: Id, header: string, request: Request, allowed: bool, seed: nat)
    | Elsewhere(state: S)

  // ---- the key ----

  predicate Blank(c: char) { c == ' ' || c == '\t' || c == '\n' || c == '\r' }

  function Strip(s: string): string { Stripped(Blank, s) }

  predicate SafeChar(c: char) {
    'A' <= c <= 'Z' || 'a' <= c <= 'z' || '0' <= c <= '9' || c == '.' || c == '_' || c == ':' || c == '-'
  }

  predicate KeyValid(key: string) {
    8 <= |key| <= 128 && forall i :: 0 <= i < |key| ==> SafeChar(key[i])
  }

  // ---- the wrapper ----

  function KeyOf<S>(a: Act<S>): (Id, string)
    requires a.Mutate?
  {
    (a.actor, Strip(a.header))
  }

  function Outcome<S, R>(h: Handler<S, R>, w: World<S, R>, a: Act<S>): Reply<R>
    requires a.Mutate?
  {
    var k := KeyOf(a);
    if !KeyValid(k.1) then BadKey
    else if !a.allowed then Denied
    else if k in w.records && w.records[k].request != a.request then KeyConflict
    else if k in w.records && w.records[k].response.Some? then Stored(w.records[k].response.value)
    else
      match h(w.state, a.request, a.seed)
      case None => Failed
      case Some(p) => Fresh(p.1)
  }

  function Next<S, R>(h: Handler<S, R>, w: World<S, R>, a: Act<S>): World<S, R> {
    match a
    case Elsewhere(state) => w.(state := state)
    case Mutate(_, _, request, _, seed) =>
      if !Outcome(h, w, a).Fresh? then w
      else
        var p := h(w.state, request, seed).value;
        World(p.0, w.records[KeyOf(a) := Record(request, Some(p.1))], w.effects + [KeyOf(a)])
  }

  /** The wrapper as it runs: the record is created pending, completed with the response, and rolled
      back with everything else if the handler fails. */
  class Wrapper<S, R> {
    var state: S
    var records: map<(Id, string), Record<R>>
    ghost var effects: seq<(Id, string)>

    ghost function View(): World<S, R>
      reads this
    {
      World(state, records, effects)
    }

    constructor (s: S)
      ensures View() == World(s, map[], [])
    {
      state, records, effects := s, map[], [];
    }

    method Handle(h: Handler<S, R>, a: Act<S>) returns (reply: Reply<R>)
      requires a.Mutate?
      modifies this
      ensures reply == Outcome(h, old(View()), a)
      ensures View() == Next(h, old(View()), a)
    {
      var key := Strip(a.header);
      if !KeyValid(key) { return BadKey; }
      if !a.allowed { return Denied; }
      var k := (a.actor, key);
      var before := records;
      if k !in records { records := records[k := Record(a.request, None)]; }
      var mutation := records[k];
      if mutation.request != a.request {
        records := before;
        return KeyConflict;
      }
      if mutation.response.Some? { return Stored(mutation.response.value); }
      var result := h(state, a.request, a.seed);
      if result.None? {
        records := before;
        return Failed;
      }
      state := result.value.0;
      records := records[k := mutation.(response := Some(result.value.1))];
      effects := effects + [k];
      reply := Fresh(result.value.1);
    }
  }

  // ---- what holds throughout ----

  /** Every committed record is completed, each effect has its record, and no key took effect twice. */
  ghost predicate Ok<S, R>(w: World<S, R>) {
    && (forall k :: k in w.records ==> w.records[k].response.Some?)
    && (forall i :: 0 <= i < |w.effects| ==> w.effects[i] in w.records)
    && Distinct(w.effects)
  }

  lemma NextKeepsOk<S, R>(h: Handler<S, R>, w: World<S, R>, a: Act<S>)
    requires Ok(w)
    ensures Ok(Next(h, w, a))
  {
  }

  ghost function Run<S, R>(h: Handler<S, R>, w: World<S, R>, acts: seq<Act<S>>): World<S, R> {
    Fold((v: World<S, R>, a: Act<S>) => Next(h, v, a), w, acts)
  }

  /** In every run, whatever the handler does and however often it fails, each (actor, key) applies its
      effect at most once and every committed record is completed. */
  lemma {:induction false} EffectsAtMostOnce<S, R>(h: Handler<S, R>, w: World<S, R>, acts: seq<Act<S>>)
    requires Ok(w)
    ensures Ok(Run(h, w, acts))
  {
    if acts != [] {
      var n := |acts| - 1;
      EffectsAtMostOnce(h, w, acts[..n]);
      NextKeepsOk(h, Run(h, w, acts[..n]), acts[n]);
    }
  }

  /** A completed record is never changed. */
  lemma {:induction false} RecordsStay<S, R>(h: Handler<S, R>, w: World<S, R>, acts: seq<Act<S>>, k: (Id, string))
    requires k in w.records && w.records[k].response.Some?
    ensures k in Run(h, w, acts).records && Run(h, w, acts).records[k] == w.records[k]
  {
    if acts != [] {
      RecordsStay(h, w, acts[..|acts| - 1], k);
    }
  }

  /** After a mutation took effect, whatever follows: the same request under its key changes nothing and
      is answered with the stored response, or refused for want of access; another request under that
      key changes nothing and conflicts, or is refused. */
  lemma RepliesAfterwards<S, R>(h: Handler<S, R>, w: World<S, R>, first: Act<S>, acts: seq<Act<S>>, later: Act<S>)
    requires first.Mutate? && Outcome(h, w, first).Fresh?
    requires later.Mutate? && KeyOf(later) == KeyOf(first)
    ensures var now := Run(h, Next(h, w, first), acts);
            && Next(h, now, later) == now
            && Outcome(h, now, later) ==
                 (if !later.allowed then Denied
                  else if later.request == first.request then Stored(Outcome(h, w, first).response)
                  else KeyConflict)
  {
    RecordsStay(h, Next(h, w, first), acts, KeyOf(first));
  }

  /** A mutation takes effect exactly if its key is valid and new to the actor, access is given and the
      handler succeeds: then the handler's state is the state, and its response is recorded under the key
      and returned. Any other attempt changes nothing. */
  lemma FreshTakesEffect<S, R>(h: Handler<S, R>, w: World<S, R>, a: Act<S>)
    requires Ok(w) && a.Mutate?
    ensures var k := (a.actor, Strip(a.header));
            var result := h(w.state, a.request, a.seed);
            if KeyValid(Strip(a.header)) && a.allowed && k !in w.records && result.Some?
            then
              && Outcome(h, w, a) == Fresh(result.value.1) && Next(h, w, a).state == result.value.0
              && Next(h, w, a).records == w.records[k := Record(a.request, Some(result.value.1))]
              && Next(h, w, a).effects == w.effects + [k]
            else
              && Next(h, w, a) == w && !Outcome(h, w, a).Fresh?
              && (Outcome(h, w, a) == BadKey <==> !KeyValid(Strip(a.header)))
              && (Outcome(h, w, a) == Denied <==> KeyValid(Strip(a.header)) && !a.allowed)
              && (Outcome(h, w, a) == Failed <==> KeyValid(Strip(a.header)) && a.allowed && k !in w.records)
  {
  }

  /** A failed attempt leaves no trace, so its key stays free for another try. */
  lemma FailureLeavesNoTrace<S, R>(h: Handler<S, R>, w: World<S, R>, a: Act<S>, retry: Act<S>)
    requires Ok(w) && a.Mutate? && Outcome(h, w, a) == Failed
    requires retry.Mutate? && KeyOf(retry) == KeyOf(a) && retry.allowed
    requires h(w.state, retry.request, retry.seed).Some?
    ensures Next(h, w, a) == w
    ensures Outcome(h, Next(h, w, a), retry).Fresh?
    ensures Next(h, Next(h, w, a), retry).effects == w.effects + [KeyOf(retry)]
  {
  }

  /** The key is the header without the blanks around it, and a valid key is left alone. */
  lemma StripMeaning(s: string) returns (i: nat, j: nat)
    ensures i <= j <= |s| && Strip(s) == s[i..j]
    ensures AllBlank(Blank, s[..i]) && AllBlank(Blank, s[j..])
    ensures Strip(s) != "" ==> !Blank(Strip(s)[0]) && !Blank(Strip(s)[|Strip(s)| - 1])
    ensures KeyValid(s) ==> Strip(s) == s
  {
    i, j := StripCutsBlanks(Blank, s);
    StripLeavesNoBlank(Blank, s);
    if KeyValid(s) {
      assert SafeChar(s[0]) && SafeChar(s[|s| - 1]);
    }
  }
}
