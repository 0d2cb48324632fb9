/** The CLI login: single-use authorization codes exchanged by concurrent callers. */
module CliExchange {
  import opened Wrappers
  import opened Text

  const CODE_TTL := 120

  /** What `issue_code` binds to a code; `who` stands for user, organization and project. */
  datatype Payload = Payload(challenge: string, who: string)

  datatype Stored = Stored(payload: Payload, deadline: int)

  /** One exchange call between its awaits. */
  datatype Phase =
    | Fetching
    | Verifying(payload: Payload)
    | Deleting(payload: Payload)
    | Minting(payload: Payload)
    | Minted(payload: Payload)
    | Refused

  datatype Caller = Caller(code: string, verifier: string, phase: Phase)

  /** `issued` and `minted` are history: all codes ever issued, and the code of every key minted. */
  datatype World = World(now: int, codes: map<string, Stored>, callers: map<nat, Caller>,
                         issued: map<string, Payload>, minted: seq<string>)

  datatype Step =
    | Issue(code: string, payload: Payload)
    | Start(id: nat, code: string, verifier: string)
    | Fetch(id: nat)
    | Verify(id: nat)
    | Delete(id: nat)
    | Mint(id: nat, stillMember: bool)
    | Tick(seconds: nat)

  predicate LiveCode(W: World, code: string) {
    code in W.codes && W.now < W.codes[code].deadline
  }

  /** Fresh codes never repeat; both inputs are required before anything is looked up. */
  predicate Enabled(W: World, s: Step) {
    match s
    case Issue(code, payload) => code !in W.issued && code != "" && !IsBlank(payload.challenge)
    case Start(id, code, verifier) => id !in W.callers && code != "" && verifier != ""
    case Fetch(id) => id in W.callers && W.callers[id].phase.Fetching?
    case Verify(id) => id in W.callers && W.callers[id].phase.Verifying?
    case Delete(id) => id in W.callers && W.callers[id].phase.Deleting?
    case Mint(id, _) => id in W.callers && W.callers[id].phase.Minting?
    case Tick(_) => true
  }

  function Moved(W: World, id: nat, phase: Phase): World
    requires id in W.callers
  {
    W.(callers := W.callers[id := W.callers[id].(phase := phase)])
  }

  /** Each await of `exchange` is one atomic step; `digest` is BASE64URL of SHA-256. */
  function Apply(digest: string -> string, W: World, s: Step): World
    requires Enabled(W, s)
  {
    match s
    case Issue(code, payload) =>
      W.(codes := W.codes[code := Stored(payload, W.now + CODE_TTL)], issued := W.issued[code := payload])
    case Start(id, code, verifier) => W.(callers := W.callers[id := Caller(code, verifier, Fetching)])
    case Fetch(id) =>
      var code := W.callers[id].code;
      Moved(W, id, if LiveCode(W, code) then Verifying(W.codes[code].payload) else Refused)
    case Verify(id) =>
      var payload := W.callers[id].phase.payload;
      Moved(W, id, if digest(W.callers[id].verifier) == payload.challenge then Deleting(payload) else Refused)
    case Delete(id) =>
      var code := W.callers[id].code;
      if LiveCode(W, code) then Moved(W, id, Minting(W.callers[id].phase.payload)).(codes := W.codes - {code})
      else Moved(W, id, Refused)
    case Mint(id, stillMember) =>
      if stillMember then
        Moved(W, id, Minted(W.callers[id].phase.payload)).(minted := W.minted + [W.callers[id].code])
      else Moved(W, id, Refused)
    case Tick(seconds) => W.(now := W.now + seconds)
  }

  predicate Valid(digest: string -> string, W: World, run: seq<Step>)
    decreases |run|
  {
    run == [] || (Enabled(W, run[0]) && Valid(digest, Apply(digest, W, run[0]), run[1..]))
  }

  function Exec(digest: string -> string, W: World, run: seq<Step>): World
    requires Valid(digest, W, run)
    decreases |run|
  {
    if run == [] then W else Exec(digest, Apply(digest, W, run[0]), run[1..])
  }

  predicate Initial(W: World) {
    W.codes == map[] && W.callers == map[] && W.issued == map[] && W.minted == []
  }

  // ------------------------------------------------------------------ at most one key per code

  /** The caller deleted the code itself and may have minted. */
  predicate Consumed(c: Caller) {
    c.phase.Minting? || c.phase.Minted?
  }

  ghost predicate CodesOk(W: World) {
    forall code :: code in W.codes ==> code in W.issued && W.codes[code].payload == W.issued[code]
  }

  ghost predicate ReadsOk(W: World) {
    forall id :: id in W.callers && !W.callers[id].phase.Fetching? && !W.callers[id].phase.Refused? ==>
      W.callers[id].code in W.issued && W.callers[id].phase.payload == W.issued[W.callers[id].code]
  }

  ghost predicate MatchOk(digest: string -> string, W: World) {
    forall id :: id in W.callers && (W.callers[id].phase.Deleting? || Consumed(W.callers[id])) ==>
      digest(W.callers[id].verifier) == W.callers[id].phase.payload.challenge
  }

  /** A consumed code is gone, and no two callers consumed the same one. */
  ghost predicate ConsumedOk(W: World) {
    && (forall id :: id in W.callers && Consumed(W.callers[id]) ==> W.callers[id].code !in W.codes)
    && (forall a, b :: a in W.callers && b in W.callers && a != b && Consumed(W.callers[a]) && Consumed(W.callers[b]) ==>
          W.callers[a].code != W.callers[b].code)
  }

  function Count(s: seq<string>, x: string): nat {
    if s == [] then 0 else Count(s[..|s| - 1], x) + if s[|s| - 1] == x then 1 else 0
  }

  ghost predicate MintedBy(W: World, code: string, id: nat) {
    id in W.callers && W.callers[id].code == code && W.callers[id].phase.Minted?
  }

  /** Keys of a code: none without a caller that minted it, one with such a caller. */
  ghost predicate MintedOk(W: World) {
    forall code :: Count(W.minted, code) == (if exists id :: MintedBy(W, code, id) then 1 else 0)
  }

  ghost predicate Inv(digest: string -> string, W: World) {
    CodesOk(W) && ReadsOk(W) && MatchOk(digest, W) && ConsumedOk(W) && MintedOk(W)
  }

  lemma MintedKept(W: World, V: World)
    requires MintedOk(W) && V.minted == W.minted
    requires forall id, code :: MintedBy(W, code, id) <==> MintedBy(V, code, id)
    ensures MintedOk(V)
  {
    forall code ensures Count(V.minted, code) == (if exists id :: MintedBy(V, code, id) then 1 else 0) {
      assert (exists id :: MintedBy(W, code, id)) <==> (exists id :: MintedBy(V, code, id));
    }
  }

  lemma MintKeeps(digest: string -> string, W: World, id: nat)
    requires Inv(digest, W) && Enabled(W, Mint(id, true))
    ensures MintedOk(Apply(digest, W, Mint(id, true)))
  {
    var V := Apply(digest, W, Mint(id, true));
    var mine := W.callers[id].code;
    forall code ensures Count(V.minted, code) == (if exists i :: MintedBy(V, code, i) then 1 else 0) {
      assert V.minted[..|V.minted| - 1] == W.minted;
      assert MintedBy(V, mine, id);
      assert code != mine ==> forall i :: MintedBy(W, code, i) <==> MintedBy(V, code, i);
      forall i ensures !MintedBy(W, mine, i) {
        assert Consumed(W.callers[id]);
      }
    }
  }

  lemma StepReads(digest: string -> string, W: World, s: Step)
    requires CodesOk(W) && ReadsOk(W) && Enabled(W, s)
    ensures CodesOk(Apply(digest, W, s)) && ReadsOk(Apply(digest, W, s))
  {
  }

  lemma StepMatch(digest: string -> string, W: World, s: Step)
    requires MatchOk(digest, W) && Enabled(W, s)
    ensures MatchOk(digest, Apply(digest, W, s))
  {
  }

  lemma StepConsumed(digest: string -> string, W: World, s: Step)
    requires CodesOk(W) && ReadsOk(W) && ConsumedOk(W) && Enabled(W, s)
    ensures ConsumedOk(Apply(digest, W, s))
  {
  }

  lemma StepMinted(digest: string -> string, W: World, s: Step)
    requires Enabled(W, s) && !(s.Mint? && s.stillMember)
    ensures Apply(digest, W, s).minted == W.minted
    ensures forall id, code :: MintedBy(W, code, id) <==> MintedBy(Apply(digest, W, s), code, id)
  {
  }

  lemma StepKeeps(digest: string -> string, W: World, s: Step)
    requires Inv(digest, W) && Enabled(W, s)
    ensures Inv(digest, Apply(digest, W, s))
  {
    StepReads(digest, W, s);
    StepMatch(digest, W, s);
    StepConsumed(digest, W, s);
    if s.Mint? && s.stillMember {
      MintKeeps(digest, W, s.id);
    } else {
      StepMinted(digest, W, s);
      MintedKept(W, Apply(digest, W, s));
    }
  }

  lemma {:induction false} RunKeeps(digest: string -> string, W: World, run: seq<Step>)
    requires Inv(digest, W) && Valid(digest, W, run)
    ensures Inv(digest, Exec(digest, W, run))
    decreases |run|
  {
    if run != [] {
      StepKeeps(digest, W, run[0]);
      RunKeeps(digest, Apply(digest, W, run[0]), run[1..]);
    }
  }

  /** Over every interleaving a code yields at most one key, and only to a proven verifier. */
  lemma SingleUse(digest: string -> string, W: World, run: seq<Step>, code: string)
    requires Initial(W) && Valid(digest, W, run)
    ensures var V := Exec(digest, W, run);
      && Count(V.minted, code) <= 1
      && (Count(V.minted, code) == 1 ==>
            code in V.issued && code !in V.codes
            && exists id :: MintedBy(V, code, id) && digest(V.callers[id].verifier) == V.issued[code].challenge
                            && V.callers[id].phase.payload == V.issued[code])
  {
    assert MintedOk(W);
    RunKeeps(digest, W, run);
    var V := Exec(digest, W, run);
    if Count(V.minted, code) == 1 {
      var id :| MintedBy(V, code, id);
      assert Consumed(V.callers[id]);
    }
  }

  // ------------------------------------------------------------------ codes expire

  /** Nobody can redeem the code any more: it is gone or past its deadline, and nobody consumed it unminted. */
  ghost predicate Spent(W: World, code: string) {
    && code in W.issued && (code in W.codes ==> W.codes[code].deadline <= W.now)
    && forall id :: id in W.callers && W.callers[id].code == code ==> !W.callers[id].phase.Minting?
  }

  lemma SpentStep(digest: string -> string, W: World, s: Step, code: string)
    requires Enabled(W, s) && Spent(W, code)
    ensures Spent(Apply(digest, W, s), code)
    ensures Count(Apply(digest, W, s).minted, code) == Count(W.minted, code)
  {
    if s.Mint? && s.stillMember {
      var V := Apply(digest, W, s);
      assert V.minted[..|V.minted| - 1] == W.minted;
    }
  }

  lemma {:induction false} SpentForever(digest: string -> string, W: World, run: seq<Step>, code: string)
    requires Valid(digest, W, run) && Spent(W, code)
    ensures Count(Exec(digest, W, run).minted, code) == Count(W.minted, code)
    decreases |run|
  {
    if run != [] {
      SpentStep(digest, W, run[0], code);
      SpentForever(digest, Apply(digest, W, run[0]), run[1..], code);
    }
  }

  /** The deadline set when the code was issued stands until the code is consumed. */
  lemma {:induction false} DeadlineStands(digest: string -> string, W: World, run: seq<Step>, code: string, deadline: int)
    requires Valid(digest, W, run) && code in W.issued && (code in W.codes ==> W.codes[code].deadline == deadline)
    ensures var V := Exec(digest, W, run); code in V.issued && (code in V.codes ==> V.codes[code].deadline == deadline)
    decreases |run|
  {
    if run != [] {
      DeadlineStands(digest, Apply(digest, W, run[0]), run[1..], code, deadline);
    }
  }

  /** Two minutes after it was issued a code that nobody consumed yields no key, whoever asks. */
  lemma CodesExpire(digest: string -> string, W: World, code: string, payload: Payload, first: seq<Step>, then_: seq<Step>)
    requires Enabled(W, Issue(code, payload)) && Valid(digest, Apply(digest, W, Issue(code, payload)), first)
    requires var M := Exec(digest, Apply(digest, W, Issue(code, payload)), first);
      && M.now >= W.now + 120 && Valid(digest, M, then_)
      && forall id :: id in M.callers && M.callers[id].code == code ==> !M.callers[id].phase.Minting?
    ensures var M := Exec(digest, Apply(digest, W, Issue(code, payload)), first);
      Count(Exec(digest, M, then_).minted, code) == Count(M.minted, code)
  {
    var I := Apply(digest, W, Issue(code, payload));
    DeadlineStands(digest, I, first, code, W.now + 120);
    SpentForever(digest, Exec(digest, I, first), then_, code);
  }

  // ------------------------------------------------------------------ a wrong verifier is harmless

  predicate StepOf(s: Step, x: nat) {
    !s.Issue? && !s.Tick? && s.id == x
  }

  /** The run as if caller `x` had never called. */
  function Without(run: seq<Step>, x: nat): seq<Step> {
    if run == [] then []
    else (if StepOf(run[0], x) then [] else [run[0]]) + Without(run[1..], x)
  }

  function Forget(W: World, x: nat): World {
    W.(callers := W.callers - {x})
  }

  /** The verifier does not match the challenge of its code, if that code was ever issued. */
  predicate Mismatch(digest: string -> string, W: World, code: string, verifier: string) {
    code in W.issued ==> digest(verifier) != W.issued[code].challenge
  }

  /** Caller `x`, if present, presents this code and verifier and has not passed verification. */
  predicate Harmless(W: World, x: nat, code: string, verifier: string) {
    x in W.callers ==>
      W.callers[x].code == code && W.callers[x].verifier == verifier
      && !W.callers[x].phase.Deleting? && !Consumed(W.callers[x])
  }

  lemma OwnStepIsInvisible(digest: string -> string, W: World, s: Step, x: nat, code: string, verifier: string)
    requires Inv(digest, W) && Enabled(W, s) && StepOf(s, x) && Harmless(W, x, code, verifier)
    requires s.Start? ==> s.code == code && s.verifier == verifier
    requires Mismatch(digest, W, code, verifier)
    ensures var V := Apply(digest, W, s); Forget(V, x) == Forget(W, x) && Harmless(V, x, code, verifier)
  {
    var V := Apply(digest, W, s);
    assert V.callers - {x} == W.callers - {x};
  }

  lemma OtherStepCommutes(digest: string -> string, W: World, s: Step, x: nat)
    requires Enabled(W, s) && !StepOf(s, x)
    ensures Enabled(Forget(W, x), s) && Forget(Apply(digest, W, s), x) == Apply(digest, Forget(W, x), s)
    ensures x in W.callers <==> x in Apply(digest, W, s).callers
    ensures x in W.callers ==> Apply(digest, W, s).callers[x] == W.callers[x]
  {
    var V, U := Forget(Apply(digest, W, s), x), Apply(digest, Forget(W, x), s);
    assert V.callers == U.callers;
  }

  /** Every step keeps what was issued. */
  lemma {:induction false} IssuedGrows(digest: string -> string, W: World, run: seq<Step>)
    requires Valid(digest, W, run)
    ensures forall code :: code in W.issued ==>
      code in Exec(digest, W, run).issued && Exec(digest, W, run).issued[code] == W.issued[code]
    decreases |run|
  {
    if run != [] {
      IssuedGrows(digest, Apply(digest, W, run[0]), run[1..]);
    }
  }

  /**
   * A caller whose verifier does not match its code's challenge changes nothing for anybody:
   * erasing all its steps leaves a valid run with the same codes, keys and other callers.
   */
  lemma {:induction false} WrongVerifierIsHarmless(digest: string -> string, W: World, run: seq<Step>, x: nat,
                                                   code: string, verifier: string)
    requires Inv(digest, W) && Valid(digest, W, run) && Harmless(W, x, code, verifier)
    requires forall i :: 0 <= i < |run| && run[i].Start? && run[i].id == x ==>
      run[i].code == code && run[i].verifier == verifier
    requires Mismatch(digest, Exec(digest, W, run), code, verifier)
    ensures Valid(digest, Forget(W, x), Without(run, x))
    ensures Exec(digest, Forget(W, x), Without(run, x)) == Forget(Exec(digest, W, run), x)
    decreases |run|
  {
    if run != [] {
      var V, s, rest := Apply(digest, W, run[0]), run[0], run[1..];
      assert forall i :: 0 <= i < |rest| ==> rest[i] == run[i + 1];
      StepKeeps(digest, W, s);
      IssuedGrows(digest, W, run);
      if StepOf(s, x) {
        OwnStepIsInvisible(digest, W, s, x, code, verifier);
        WrongVerifierIsHarmless(digest, V, rest, x, code, verifier);
        assert Without(run, x) == Without(rest, x);
      } else {
        OtherStepCommutes(digest, W, s, x);
        WrongVerifierIsHarmless(digest, V, rest, x, code, verifier);
        assert Without(run, x) == [s] + Without(rest, x);
        assert ([s] + Without(rest, x))[1..] == Without(rest, x);
      }
    }
  }

  // ------------------------------------------------------------------ the service

  /** What the project lookup finds. */
  datatype Project = Missing | Foreign | OfOrganization

  datatype Error = Invalid | Unauthenticated | Unauthorized | NotFound

  lemma {:induction false} RunsCompose(digest: string -> string, W: World, a: seq<Step>, b: seq<Step>)
    requires Valid(digest, W, a) && Valid(digest, Exec(digest, W, a), b)
    ensures Valid(digest, W, a + b) && Exec(digest, W, a + b) == Exec(digest, Exec(digest, W, a), b)
    decreases |a|
  {
    if a == [] {
      assert a + b == b;
    } else {
      assert (a + b)[0] == a[0] && (a + b)[1..] == a[1..] + b;
      RunsCompose(digest, Apply(digest, W, a[0]), a[1..], b);
    }
  }

  lemma {:induction false} OthersLeaveCaller(digest: string -> string, W: World, run: seq<Step>, x: nat)
    requires Valid(digest, W, run) && forall s :: s in run ==> !StepOf(s, x)
    ensures x in W.callers <==> x in Exec(digest, W, run).callers
    ensures x in W.callers ==> Exec(digest, W, run).callers[x] == W.callers[x]
    decreases |run|
  {
    if run != [] {
      OtherStepCommutes(digest, W, run[0], x);
      OthersLeaveCaller(digest, Apply(digest, W, run[0]), run[1..], x);
    }
  }

  /** What one caller did in a run. */
  function Own(run: seq<Step>, x: nat): seq<Step> {
    if run == [] then []
    else Own(run[..|run| - 1], x) + if StepOf(run[|run| - 1], x) then [run[|run| - 1]] else []
  }

  lemma {:induction false} OthersAddNothing(run: seq<Step>, others: seq<Step>, x: nat)
    requires forall s :: s in others ==> !StepOf(s, x)
    ensures Own(run + others, x) == Own(run, x)
    decreases |others|
  {
    if others == [] {
      assert run + others == run;
    } else {
      var n := |others| - 1;
      assert (run + others)[..|run| + n] == run + others[..n] && others[n] in others;
      OthersAddNothing(run, others[..n], x);
    }
  }

  lemma NothingDone(digest: string -> string, W: World, x: nat)
    ensures Valid(digest, W, []) && Exec(digest, W, []) == W && Own([], x) == []
  {
  }

  lemma StepAndOthers(run: seq<Step>, s: Step, others: seq<Step>, x: nat)
    requires StepOf(s, x) && forall t :: t in others ==> !StepOf(t, x)
    ensures Own(run + [s] + others, x) == Own(run, x) + [s]
  {
    OthersAddNothing(run + [s], others, x);
    assert (run + [s])[..|run|] == run;
  }

  /** The first part of an exchange, up to the comparison of the challenge. */
  function Proof(id: nat, code: string, verifier: string): seq<Step> {
    [Start(id, code, verifier), Fetch(id), Verify(id)]
  }

  /** A complete exchange. */
  function Steps(id: nat, code: string, verifier: string, stillMember: bool): seq<Step> {
    Proof(id, code, verifier) + [Delete(id), Mint(id, stillMember)]
  }

  lemma RunTwo(digest: string -> string, W: World, s: Step, t: Step)
    requires Enabled(W, s) && Enabled(Apply(digest, W, s), t)
    ensures Valid(digest, W, [s, t]) && Exec(digest, W, [s, t]) == Apply(digest, Apply(digest, W, s), t)
  {
    assert [s, t][1..] == [t] && [t][1..] == [];
    var V := Apply(digest, W, s);
    assert Valid(digest, Apply(digest, V, t), []) && Exec(digest, Apply(digest, V, t), []) == Apply(digest, V, t);
    assert Valid(digest, V, [t]) && Exec(digest, V, [t]) == Apply(digest, V, t);
  }

  lemma RunThree(digest: string -> string, W: World, s: Step, t: Step, u: Step)
    requires Enabled(W, s)
    requires var V := Apply(digest, W, s); Enabled(V, t) && Enabled(Apply(digest, V, t), u)
    ensures Valid(digest, W, [s, t, u])
    ensures Exec(digest, W, [s, t, u]) == Apply(digest, Apply(digest, Apply(digest, W, s), t), u)
  {
    assert [s, t, u][1..] == [t, u];
    RunTwo(digest, Apply(digest, W, s), t, u);
  }

  lemma LoneProof(digest: string -> string, W: World, id: nat, code: string, verifier: string)
    requires id !in W.callers && code != "" && verifier != "" && LiveCode(W, code)
    ensures Valid(digest, W, Proof(id, code, verifier))
    ensures var payload := W.codes[code].payload;
      var phase := if digest(verifier) == payload.challenge then Deleting(payload) else Refused;
      Exec(digest, W, Proof(id, code, verifier)) == W.(callers := W.callers[id := Caller(code, verifier, phase)])
  {
    var started := Apply(digest, W, Start(id, code, verifier));
    var fetched := Apply(digest, started, Fetch(id));
    assert fetched.callers[id].phase == Verifying(W.codes[code].payload);
    RunThree(digest, W, Start(id, code, verifier), Fetch(id), Verify(id));
    var payload := W.codes[code].payload;
    var phase := if digest(verifier) == payload.challenge then Deleting(payload) else Refused;
    assert Apply(digest, fetched, Verify(id)).callers == W.callers[id := Caller(code, verifier, phase)];
  }

  /** Alone with a live code, a member gets its key exactly when the verifier matches. */
  lemma LoneExchange(digest: string -> string, W: World, id: nat, code: string, verifier: string)
    requires id !in W.callers && code != "" && verifier != "" && LiveCode(W, code)
    ensures Valid(digest, W, Steps(id, code, verifier, true)) <==> digest(verifier) == W.codes[code].payload.challenge
    ensures digest(verifier) == W.codes[code].payload.challenge ==>
      var V := Exec(digest, W, Steps(id, code, verifier, true)); V.minted == W.minted + [code] && V.codes == W.codes - {code}
    ensures digest(verifier) != W.codes[code].payload.challenge ==>
      Valid(digest, W, Proof(id, code, verifier)) && Exec(digest, W, Proof(id, code, verifier)).codes == W.codes
  {
    LoneProof(digest, W, id, code, verifier);
    var V := Exec(digest, W, Proof(id, code, verifier));
    if digest(verifier) == W.codes[code].payload.challenge {
      RunTwo(digest, V, Delete(id), Mint(id, true));
      RunsCompose(digest, W, Proof(id, code, verifier), [Delete(id), Mint(id, true)]);
    } else {
      NotDeleting(digest, W, id, code, verifier);
    }
  }

  /** A code issued less than two minutes ago serves the member whose verifier matches. */
  lemma IssuedCodeServes(digest: string -> string, W: World, code: string, payload: Payload, seconds: nat, id: nat, verifier: string)
    requires Enabled(W, Issue(code, payload)) && id !in W.callers && verifier != "" && seconds < 120
    requires digest(verifier) == payload.challenge
    ensures var I := Apply(digest, Apply(digest, W, Issue(code, payload)), Tick(seconds));
      && Valid(digest, I, Steps(id, code, verifier, true))
      && Exec(digest, I, Steps(id, code, verifier, true)).minted == W.minted + [code]
      && code !in Exec(digest, I, Steps(id, code, verifier, true)).codes
  {
    LoneExchange(digest, Apply(digest, Apply(digest, W, Issue(code, payload)), Tick(seconds)), id, code, verifier);
  }

  lemma NotDeleting(digest: string -> string, W: World, id: nat, code: string, verifier: string)
    requires Valid(digest, W, Proof(id, code, verifier))
    requires var V := Exec(digest, W, Proof(id, code, verifier)); id in V.callers && !V.callers[id].phase.Deleting?
    ensures !Valid(digest, W, Steps(id, code, verifier, true))
  {
    if Valid(digest, W, Steps(id, code, verifier, true)) {
      ValidSplit(digest, W, Proof(id, code, verifier), [Delete(id), Mint(id, true)]);
    }
  }

  lemma {:induction false} ValidSplit(digest: string -> string, W: World, a: seq<Step>, b: seq<Step>)
    requires Valid(digest, W, a + b)
    ensures Valid(digest, W, a) && Valid(digest, Exec(digest, W, a), b)
    decreases |a|
  {
    if a == [] {
      assert a + b == b;
    } else {
      assert (a + b)[0] == a[0] && (a + b)[1..] == a[1..] + b;
      ValidSplit(digest, Apply(digest, W, a[0]), a[1..], b);
    }
  }

  /** A minted key belongs to whoever proved the challenge bound to the code. */
  lemma MintedMeaning(digest: string -> string, W: World, id: nat, code: string)
    requires Inv(digest, W) && MintedBy(W, code, id)
    ensures var payload := W.callers[id].phase.payload;
      code in W.issued && payload == W.issued[code] && digest(W.callers[id].verifier) == payload.challenge
  {
    assert Consumed(W.callers[id]);
  }

  class CliAuthService {
    var world: World
    const digest: string -> string

    constructor (w: World, d: string -> string)
      ensures world == w && digest == d
    {
      world, digest := w, d;
    }

    /**
     * Bind a fresh code to a challenge. Only S256, a challenge that is not blank and the fixed
     * lifetime are accepted, from a member of the organization and for one of its projects.
     */
    method IssueCode(code: string, payload: Payload, challengeMethod: string, expiresDays: int, member: bool, project: Project)
      returns (r: Result<int, Error>)
      requires code != "" && code !in world.issued
      modifies this
      ensures r == Err(Invalid) <==> challengeMethod != "S256" || IsBlank(payload.challenge) || expiresDays != 90
      ensures r.Ok? <==>
        challengeMethod == "S256" && !IsBlank(payload.challenge) && expiresDays == 90 && member && project.OfOrganization?
      ensures r == Err(NotFound) ==> member && project.Missing?
      ensures r == Err(Unauthorized) ==> !member || project.Foreign?
      ensures r.Ok? ==> r.value == CODE_TTL && world == Apply(digest, old(world), Issue(code, payload))
      ensures r.Err? ==> r != Err(Unauthenticated) && world == old(world)
    {
      if challengeMethod != "S256" || IsBlank(payload.challenge) || expiresDays != 90 {
        return Err(Invalid);
      }
      if !member {
        return Err(Unauthorized);
      }
      if !project.OfOrganization? {
        return Err(if project.Missing? then NotFound else Unauthorized);
      }
      world := world.(codes := world.codes[code := Stored(payload, world.now + CODE_TTL)],
                      issued := world.issued[code := payload]);
      r := Ok(CODE_TTL);
    }

    /** Everyone else: any run without this caller. The body only witnesses the frame. */
    method Interfere(me: nat) returns (ghost run: seq<Step>)
      modifies this
      ensures Valid(digest, old(world), run) && world == Exec(digest, old(world), run)
      ensures forall s :: s in run ==> !StepOf(s, me)
    {
      run := [];
    }

    /** One step of this caller, then everyone else. */
    method Do(s: Step, me: nat, ghost before: World, ghost run: seq<Step>) returns (ghost longer: seq<Step>)
      requires Enabled(world, s) && StepOf(s, me) && Valid(digest, before, run) && Exec(digest, before, run) == world
      requires Inv(digest, world)
      modifies this
      ensures Valid(digest, before, longer) && Exec(digest, before, longer) == world && Inv(digest, world)
      ensures me in world.callers && world.callers[me] == Apply(digest, old(world), s).callers[me]
      ensures Own(longer, me) == Own(run, me) + [s]
    {
      assert Valid(digest, Apply(digest, world, s), [s][1..]);
      RunsCompose(digest, before, run, [s]);
      world := Apply(digest, world, s);
      ghost var mine := run + [s];
      ghost var others := Interfere(me);
      OthersLeaveCaller(digest, Exec(digest, before, mine), others, me);
      RunsCompose(digest, before, mine, others);
      StepKeeps(digest, old(world), s);
      RunKeeps(digest, Apply(digest, old(world), s), others);
      StepAndOthers(run, s, others, me);
      longer := mine + others;
    }

    /**
     * One exchange among concurrent ones: fetch, verify, delete, mint. Each error is raised by
     * the step that refused this caller, and by no other; `member` is whether the code's user
     * still belongs to the organization.
     */
    method Exchange(me: nat, code: string, verifier: string, member: bool) returns (r: Result<Payload, Error>, ghost run: seq<Step>)
      requires me !in world.callers && Inv(digest, world)
      modifies this
      ensures Valid(digest, old(world), run) && world == Exec(digest, old(world), run)
      ensures Inv(digest, world)
      ensures r.Ok? ==> MintedBy(world, code, me) && digest(verifier) == r.value.challenge
      ensures r.Ok? ==> code in world.issued && r.value == world.issued[code]
      ensures r.Ok? ==> Own(run, me) == Steps(me, code, verifier, true)
      ensures r == Err(Invalid) <==> code == "" || verifier == ""
      ensures r == Err(Invalid) ==> world == old(world)
      ensures r == Err(Unauthorized) ==> !member && Own(run, me) == Steps(me, code, verifier, false)
      ensures r.Ok? ==> member
      ensures r == Err(Unauthenticated) ==> 2 <= |Own(run, me)| <= 4 && Own(run, me) <= Steps(me, code, verifier, true)
      ensures r.Err? && r != Err(Invalid) ==> me in world.callers && world.callers[me] == Caller(code, verifier, Refused)
    {
      hide Inv, Valid, Exec, Own;
      NothingDone(digest, world, me);
      run := [];
      if code == "" || verifier == "" {
        return Err(Invalid), run;
      }
      ghost var steps := Steps(me, code, verifier, true);
      run := Do(Start(me, code, verifier), me, old(world), run);
      run := Do(Fetch(me), me, old(world), run);
      if world.callers[me].phase.Refused? {
        assert Own(run, me) == steps[..2];
        return Err(Unauthenticated), run;
      }
      run := Do(Verify(me), me, old(world), run);
      if world.callers[me].phase.Refused? {
        assert Own(run, me) == steps[..3];
        return Err(Unauthenticated), run;
      }
      assert steps[..4] == Proof(me, code, verifier) + [Delete(me)];
      r, run := Redeem(me, code, verifier, member, old(world), run);
    }

    /** The second half: consume the proven code, then mint a key for a member. */
    method Redeem(me: nat, code: string, verifier: string, member: bool, ghost before: World, ghost run: seq<Step>)
      returns (r: Result<Payload, Error>, ghost longer: seq<Step>)
      requires Valid(digest, before, run) && Exec(digest, before, run) == world && Inv(digest, world)
      requires me in world.callers && Own(run, me) == Proof(me, code, verifier)
      requires world.callers[me].phase.Deleting? && world.callers[me].code == code && world.callers[me].verifier == verifier
      modifies this
      ensures Valid(digest, before, longer) && Exec(digest, before, longer) == world && Inv(digest, world)
      ensures match r
        case Ok(payload) =>
          && member && MintedBy(world, code, me) && digest(verifier) == payload.challenge
          && code in world.issued && payload == world.issued[code]
          && Own(longer, me) == Steps(me, code, verifier, true)
        case Err(error) =>
          && me in world.callers && world.callers[me] == Caller(code, verifier, Refused)
          && (error == Unauthorized || error == Unauthenticated) && (error == Unauthorized ==> !member)
          && Own(longer, me) == if error == Unauthorized then Steps(me, code, verifier, false)
                                else Proof(me, code, verifier) + [Delete(me)]
    {
      hide Inv, Valid, Exec, Own;
      longer := Do(Delete(me), me, before, run);
      if world.callers[me].phase.Refused? {
        return Err(Unauthenticated), longer;
      }
      longer := Do(Mint(me, member), me, before, longer);
      assert Proof(me, code, verifier) + [Delete(me)] + [Mint(me, member)] == Steps(me, code, verifier, member);
      if world.callers[me].phase.Refused? {
        return Err(Unauthorized), longer;
      }
      MintedMeaning(digest, world, me, code);
      r := Ok(world.callers[me].phase.payload);
    }
  }
}
