/**
 * Refresh-token families. A rotation reads its token, claims it, and only then issues the next one; a rotation
 * that finds its token taken revokes the family. Each of these is a statement of its own, so others come between.
 */
module RefreshTokens {
  import opened Support

  datatype Token = Token(family: nat, revoked: bool)

  // The table, and the four statements that change it. Hashes are positions: each issued token has its own.

  function Claim(tokens: seq<Token>, t: nat): seq<Token> {
    if t < |tokens| then tokens[t := tokens[t].(revoked := true)] else tokens
  }

  predicate Claims(tokens: seq<Token>, t: nat) {
    t < |tokens| && !tokens[t].revoked
  }

  function RevokeFamily(tokens: seq<Token>, family: nat): seq<Token> {
    if tokens == [] then []
    else
      var last := tokens[|tokens| - 1];
      RevokeFamily(tokens[..|tokens| - 1], family) + [if last.family == family then last.(revoked := true) else last]
  }

  class TokenTable {
    var tokens: seq<Token>

    constructor ()
      ensures tokens == []
    {
      tokens := [];
    }

    /** The conditional update: exactly one of several concurrent callers is told that it changed the row. */
    method ClaimToken(t: nat) returns (affected: bool)
      modifies this
      ensures affected == Claims(old(tokens), t)
      ensures tokens == if affected then Claim(old(tokens), t) else old(tokens)
    {
      affected := t < |tokens| && !tokens[t].revoked;
      if affected {
        tokens := tokens[t := tokens[t].(revoked := true)];
      }
    }

    method IssueRefreshToken(family: nat)
      modifies this
      ensures tokens == old(tokens) + [Token(family, false)]
    {
      tokens := tokens + [Token(family, false)];
    }

    method RevokeRefresh(t: nat)
      modifies this
      ensures tokens == Claim(old(tokens), t)
    {
      if t < |tokens| {
        tokens := tokens[t := tokens[t].(revoked := true)];
      }
    }

    method RevokeFamilyTokens(family: nat)
      modifies this
      ensures tokens == RevokeFamily(old(tokens), family)
    {
      var before := tokens;
      tokens := seq(|before|, i requires 0 <= i < |before| =>
        if before[i].family == family && !before[i].revoked then before[i].(revoked := true) else before[i]);
      RevokeFamilyEffect(before, family);
    }
  }

  // All requests at once.

  datatype Rotation =
    | HasRead(token: nat)
    | HasClaimed(family: nat)
    | FoundReuse(family: nat)
    | Finished

  /** `claims` logs every token a rotation won. */
  datatype State = State(tokens: seq<Token>, rotations: seq<Rotation>, families: nat, claims: seq<nat>)

  /** Deactivating a user revokes every family of theirs, each by a step of its own. */
  datatype Step =
    | CreateSession
    | StartRotation(token: nat)
    | ClaimStep(rotation: nat)
    | IssueStep(rotation: nat, active: bool)
    | RevokeStep(rotation: nat)
    | Abandon(rotation: nat)
    | Logout(token: nat)
    | Deactivate(family: nat)

  function RotationAt(s: State, k: nat): Rotation {
    if k < |s.rotations| then s.rotations[k] else Finished
  }

  function MoveTo(s: State, k: nat, rotation: Rotation): State {
    if k < |s.rotations| then s.(rotations := s.rotations[k := rotation]) else s
  }

  function Next(s: State, step: Step): State {
    match step
    case CreateSession => s.(tokens := s.tokens + [Token(s.families, false)], families := s.families + 1)
    case StartRotation(t) => if t < |s.tokens| then s.(rotations := s.rotations + [HasRead(t)]) else s
    case ClaimStep(k) =>
      (match RotationAt(s, k)
       case HasRead(t) =>
         if Claims(s.tokens, t) then
           MoveTo(s, k, HasClaimed(s.tokens[t].family)).(tokens := Claim(s.tokens, t), claims := s.claims + [t])
         else if t < |s.tokens| then
           MoveTo(s, k, FoundReuse(s.tokens[t].family))
         else
           s
       case _ => s)
    case IssueStep(k, active) =>
      (match RotationAt(s, k)
       case HasClaimed(f) =>
         var done := MoveTo(s, k, Finished);
         if active then done.(tokens := s.tokens + [Token(f, false)]) else done
       case _ => s)
    case RevokeStep(k) =>
      (match RotationAt(s, k)
       case FoundReuse(f) => MoveTo(s, k, Finished).(tokens := RevokeFamily(s.tokens, f))
       case _ => s)
    case Abandon(k) => MoveTo(s, k, Finished)
    case Logout(t) => s.(tokens := Claim(s.tokens, t))
    case Deactivate(f) => s.(tokens := RevokeFamily(s.tokens, f))
  }

  function Run(s: State, steps: seq<Step>): State {
    if steps == [] then s else Next(Run(s, steps[..|steps| - 1]), steps[|steps| - 1])
  }

  lemma RunSnoc(s: State, steps: seq<Step>, step: Step)
    ensures Run(s, steps + [step]) == Next(Run(s, steps), step)
  {
    assert (steps + [step])[..|steps|] == steps;
  }

  lemma {:induction false} RunConcat(s: State, a: seq<Step>, b: seq<Step>)
    ensures Run(s, a + b) == Run(Run(s, a), b)
  {
    if b == [] {
      assert a + b == a;
    } else {
      var n := |b| - 1;
      assert (a + b)[..|a| + n] == a + b[..n];
      RunConcat(s, a, b[..n]);
    }
  }

  const START: State := State([], [], 0, [])

  // Counting what a family has left.

  function LiveToken(family: nat): Token -> int {
    (t: Token) => if t.family == family && !t.revoked then 1 else 0
  }

  function ClaimedRotation(family: nat): Rotation -> int {
    (r: Rotation) => if r == HasClaimed(family) then 1 else 0
  }

  function Live(s: State, family: nat): int {
    SumBy(s.tokens, LiveToken(family))
  }

  function Claimed(s: State, family: nat): int {
    SumBy(s.rotations, ClaimedRotation(family))
  }

  /** Families are numbered as they are opened, and rotations only know families of tokens. */
  ghost predicate Numbered(s: State) {
    && (forall i :: 0 <= i < |s.tokens| ==> s.tokens[i].family < s.families)
    && (forall k :: 0 <= k < |s.rotations| && (s.rotations[k].HasClaimed? || s.rotations[k].FoundReuse?) ==>
          s.rotations[k].family < s.families)
  }

  /** A token some rotation won is revoked for good, and no other rotation won it. */
  ghost predicate ClaimedOnce(s: State) {
    forall t: nat :: multiset(s.claims)[t] <= 1 && (t in s.claims ==> t < |s.tokens| && s.tokens[t].revoked)
  }

  lemma {:induction false} RevokeFamilyEffect(tokens: seq<Token>, family: nat)
    ensures |RevokeFamily(tokens, family)| == |tokens|
    ensures forall i :: 0 <= i < |tokens| ==>
              RevokeFamily(tokens, family)[i] == tokens[i].(revoked := tokens[i].revoked || tokens[i].family == family)
  {
    if tokens != [] {
      RevokeFamilyEffect(tokens[..|tokens| - 1], family);
    }
  }

  lemma {:induction false} RevokeFamilyCounts(tokens: seq<Token>, family: nat, other: nat)
    ensures SumBy(RevokeFamily(tokens, family), LiveToken(other)) ==
            if other == family then 0 else SumBy(tokens, LiveToken(other))
  {
    if tokens != [] {
      RevokeFamilyCounts(tokens[..|tokens| - 1], family, other);
      var last := tokens[|tokens| - 1];
      SumAppend(RevokeFamily(tokens[..|tokens| - 1], family),
                if last.family == family then last.(revoked := true) else last, LiveToken(other));
    }
  }

  lemma MoveCounts(s: State, k: nat, rotation: Rotation, family: nat)
    ensures Claimed(MoveTo(s, k, rotation), family) ==
            Claimed(s, family) + if k < |s.rotations| then
              ClaimedRotation(family)(rotation) - ClaimedRotation(family)(s.rotations[k]) else 0
  {
    if k < |s.rotations| {
      SumUpdate(s.rotations, k, rotation, ClaimedRotation(family));
    }
  }

  lemma ClaimCounts(tokens: seq<Token>, t: nat, family: nat)
    ensures SumBy(Claim(tokens, t), LiveToken(family)) ==
            SumBy(tokens, LiveToken(family)) - if t < |tokens| then LiveToken(family)(tokens[t]) else 0
  {
    if t < |tokens| {
      SumUpdate(tokens, t, tokens[t].(revoked := true), LiveToken(family));
    }
  }

  lemma CountsAreNatural(s: State, family: nat)
    ensures 0 <= Live(s, family) && 0 <= Claimed(s, family)
    ensures forall i :: 0 <= i < |s.tokens| ==> LiveToken(family)(s.tokens[i]) <= Live(s, family)
    ensures forall k :: 0 <= k < |s.rotations| ==> ClaimedRotation(family)(s.rotations[k]) <= Claimed(s, family)
  {
    SumNonNegative(s.tokens, LiveToken(family));
    SumNonNegative(s.rotations, ClaimedRotation(family));
  }

  function Total(s: State, family: nat): int {
    Live(s, family) + Claimed(s, family)
  }

  lemma ClaimKeepsTotal(s: State, k: nat, family: nat)
    ensures Total(Next(s, ClaimStep(k)), family) <= Total(s, family)
  {
    if RotationAt(s, k).HasRead? {
      var t := s.rotations[k].token;
      if t < |s.tokens| {
        ClaimCounts(s.tokens, t, family);
        MoveCounts(s, k, HasClaimed(s.tokens[t].family), family);
        MoveCounts(s, k, FoundReuse(s.tokens[t].family), family);
      }
    }
  }

  lemma IssueKeepsTotal(s: State, k: nat, active: bool, family: nat)
    ensures Total(Next(s, IssueStep(k, active)), family) <= Total(s, family)
  {
    if RotationAt(s, k).HasClaimed? {
      MoveCounts(s, k, Finished, family);
      SumAppend(s.tokens, Token(s.rotations[k].family, false), LiveToken(family));
    }
  }

  lemma RevokeKeepsTotal(s: State, k: nat, family: nat)
    ensures Total(Next(s, RevokeStep(k)), family) <= Total(s, family)
  {
    if RotationAt(s, k).FoundReuse? {
      MoveCounts(s, k, Finished, family);
      RevokeFamilyCounts(s.tokens, s.rotations[k].family, family);
      CountsAreNatural(s, family);
    }
  }

  lemma LogoutKeepsTotal(s: State, t: nat, family: nat)
    ensures Total(Next(s, Logout(t)), family) <= Total(s, family)
  {
    ClaimCounts(s.tokens, t, family);
  }

  /** A family's live tokens and claimed rotations together never grow, except when it is opened. */
  lemma NextKeepsTotal(s: State, step: Step, family: nat)
    ensures Total(Next(s, step), family) <=
            Total(s, family) + if step.CreateSession? && s.families == family then 1 else 0
  {
    match step
    case CreateSession => SumAppend(s.tokens, Token(s.families, false), LiveToken(family));
    case StartRotation(t) => SumAppend(s.rotations, HasRead(t), ClaimedRotation(family));
    case ClaimStep(k) => ClaimKeepsTotal(s, k, family);
    case IssueStep(k, active) => IssueKeepsTotal(s, k, active, family);
    case RevokeStep(k) => RevokeKeepsTotal(s, k, family);
    case Abandon(k) => MoveCounts(s, k, Finished, family);
    case Logout(t) => LogoutKeepsTotal(s, t, family);
    case Deactivate(f) =>
      RevokeFamilyCounts(s.tokens, f, family);
      CountsAreNatural(s, family);
  }

  lemma NextNumbered(s: State, step: Step)
    requires Numbered(s)
    ensures Numbered(Next(s, step)) && s.families <= Next(s, step).families
  {
    if step.RevokeStep? && RotationAt(s, step.rotation).FoundReuse? {
      RevokeFamilyEffect(s.tokens, s.rotations[step.rotation].family);
    } else if step.Deactivate? {
      RevokeFamilyEffect(s.tokens, step.family);
    }
  }

  lemma NextClaimedOnce(s: State, step: Step)
    requires ClaimedOnce(s)
    ensures ClaimedOnce(Next(s, step))
  {
    match step
    case RevokeStep(k) =>
      if RotationAt(s, k).FoundReuse? {
        RevokeFamilyEffect(s.tokens, s.rotations[k].family);
      }
    case Deactivate(f) => RevokeFamilyEffect(s.tokens, f);
    case ClaimStep(k) =>
      if RotationAt(s, k).HasRead? && Claims(s.tokens, s.rotations[k].token) {
        ClaimingOnce(s, s.rotations[k].token);
      }
    case _ =>
  }

  lemma ClaimingOnce(s: State, t: nat)
    requires ClaimedOnce(s) && Claims(s.tokens, t)
    ensures ClaimedOnce(s.(tokens := Claim(s.tokens, t), claims := s.claims + [t]))
  {
    assert t !in s.claims;
  }

  /** In every run a family has at most one live token or one rotation about to issue it, never both or more. */
  lemma {:induction false} OneTokenPerFamily(steps: seq<Step>, family: nat)
    ensures var s := Run(START, steps);
            && Numbered(s)
            && 0 <= Live(s, family) && 0 <= Claimed(s, family)
            && Live(s, family) + Claimed(s, family) <= if family < s.families then 1 else 0
  {
    CountsAreNatural(Run(START, steps), family);
    if steps != [] {
      var before, step := Run(START, steps[..|steps| - 1]), steps[|steps| - 1];
      OneTokenPerFamily(steps[..|steps| - 1], family);
      NextNumbered(before, step);
      NextKeepsTotal(before, step, family);
    }
  }

  /** However many requests present one token at once, a single rotation wins it. */
  lemma {:induction false} EachTokenRotatesOnce(steps: seq<Step>)
    ensures ClaimedOnce(Run(START, steps))
  {
    if steps != [] {
      EachTokenRotatesOnce(steps[..|steps| - 1]);
      NextClaimedOnce(Run(START, steps[..|steps| - 1]), steps[|steps| - 1]);
    }
  }

  lemma {:induction false} SpentStaysSpent(s: State, steps: seq<Step>, family: nat)
    requires family < s.families && Live(s, family) == 0 && Claimed(s, family) == 0
    ensures var s' := Run(s, steps);
            family < s'.families && Live(s', family) == 0 && Claimed(s', family) == 0
  {
    CountsAreNatural(Run(s, steps), family);
    if steps != [] {
      SpentStaysSpent(s, steps[..|steps| - 1], family);
      NextKeepsTotal(Run(s, steps[..|steps| - 1]), steps[|steps| - 1], family);
    }
  }

  ghost predicate DeadForever(s: State, family: nat) {
    forall steps: seq<Step> :: Live(Run(s, steps), family) == 0
  }

  lemma {:induction false} SomeoneClaimed(rotations: seq<Rotation>, family: nat) returns (k: nat)
    requires SumBy(rotations, ClaimedRotation(family)) > 0
    ensures k < |rotations| && rotations[k] == HasClaimed(family)
  {
    var n := |rotations| - 1;
    if rotations[n] == HasClaimed(family) {
      k := n;
    } else {
      k := SomeoneClaimed(rotations[..n], family);
    }
  }

  lemma IssuingRevives(s: State, k: nat, family: nat) returns (steps: seq<Step>)
    requires RotationAt(s, k) == HasClaimed(family)
    ensures Live(Run(s, steps), family) == Live(s, family) + 1
  {
    steps := [IssueStep(k, true)];
    assert steps[..0] == [];
    assert Run(s, steps) == Next(s, IssueStep(k, true));
    SumAppend(s.tokens, Token(family, false), LiveToken(family));
  }

  /** A family without a live token never has one again exactly when no rotation of it is in flight. */
  lemma DeadIffNothingInFlight(s: State, family: nat)
    requires family < s.families && Live(s, family) == 0
    ensures DeadForever(s, family) <==> Claimed(s, family) == 0
  {
    CountsAreNatural(s, family);
    if Claimed(s, family) == 0 {
      forall steps: seq<Step> ensures Live(Run(s, steps), family) == 0 {
        SpentStaysSpent(s, steps, family);
      }
    } else {
      var j := SomeoneClaimed(s.rotations, family);
      var steps := IssuingRevives(s, j, family);
    }
  }

  lemma RevokingCounts(s: State, k: nat, family: nat)
    requires RotationAt(s, k) == FoundReuse(family)
    ensures var s' := Next(s, RevokeStep(k));
            s'.families == s.families && Live(s', family) == 0 && Claimed(s', family) == Claimed(s, family)
  {
    RevokeFamilyCounts(s.tokens, family, family);
    MoveCounts(s, k, Finished, family);
  }

  /**
   * Revoking a family on reuse ends it for good exactly when no rotation of it has claimed and not yet issued:
   * such a rotation still issues a live token afterwards.
   */
  lemma ReuseEndsTheFamilyIffNothingInFlight(s: State, k: nat, family: nat)
    requires RotationAt(s, k) == FoundReuse(family) && family < s.families
    ensures Live(Next(s, RevokeStep(k)), family) == 0
    ensures DeadForever(Next(s, RevokeStep(k)), family) <==> Claimed(s, family) == 0
  {
    RevokingCounts(s, k, family);
    DeadIffNothingInFlight(Next(s, RevokeStep(k)), family);
  }

  /**
   * Deactivating the user ends a family under the same condition: a rotation in flight has read the user before
   * and does not look again.
   */
  lemma DeactivationEndsTheFamilyIffNothingInFlight(s: State, family: nat)
    requires family < s.families
    ensures Live(Next(s, Deactivate(family)), family) == 0
    ensures DeadForever(Next(s, Deactivate(family)), family) <==> Claimed(s, family) == 0
  {
    RevokeFamilyCounts(s.tokens, family, family);
    DeadIffNothingInFlight(Next(s, Deactivate(family)), family);
  }

  // One rotation on its own, from its read to its end.

  lemma RunThree(s: State, a: Step, b: Step, c: Step)
    ensures Run(s, [a, b, c]) == Next(Next(Next(s, a), b), c)
  {
    assert [a, b, c] == [a] + [b] + [c] && [a] == [] + [a];
    RunSnoc(s, [], a);
    RunSnoc(s, [a], b);
    RunSnoc(s, [a] + [b], c);
  }

  /** Presenting a live token spends it, and issues the next one of its family while its user is active. */
  lemma RotationReplacesItsToken(s: State, t: nat, active: bool)
    requires Claims(s.tokens, t)
    ensures var n, family := |s.rotations|, s.tokens[t].family;
            Run(s, [StartRotation(t), ClaimStep(n), IssueStep(n, active)]) ==
              s.(tokens := s.tokens[t := Token(family, true)] + (if active then [Token(family, false)] else []),
                 rotations := s.rotations + [Finished],
                 claims := s.claims + [t])
  {
    var n, family := |s.rotations|, s.tokens[t].family;
    RunThree(s, StartRotation(t), ClaimStep(n), IssueStep(n, active));
    var read := s.(rotations := s.rotations + [HasRead(t)]);
    var claimed := s.(tokens := s.tokens[t := Token(family, true)], rotations := s.rotations + [HasClaimed(family)],
                      claims := s.claims + [t]);
    assert Next(s, StartRotation(t)) == read;
    assert read.rotations[n := HasClaimed(family)] == s.rotations + [HasClaimed(family)];
    assert Next(read, ClaimStep(n)) == claimed;
    assert claimed.rotations[n := Finished] == s.rotations + [Finished];
  }

  lemma ReplayIsFound(s: State, t: nat)
    requires t < |s.tokens| && s.tokens[t].revoked
    ensures var n, family := |s.rotations|, s.tokens[t].family;
            Next(Next(s, StartRotation(t)), ClaimStep(n)) == s.(rotations := s.rotations + [FoundReuse(family)])
  {
    var n, family := |s.rotations|, s.tokens[t].family;
    var read := s.(rotations := s.rotations + [HasRead(t)]);
    assert Next(s, StartRotation(t)) == read;
    assert read.rotations[n := FoundReuse(family)] == s.rotations + [FoundReuse(family)];
  }

  /** Presenting a token that is spent already leaves its family without a live token, and changes no other. */
  lemma ReplayRevokesTheFamily(s: State, t: nat, other: nat)
    requires t < |s.tokens| && s.tokens[t].revoked
    ensures var n, family := |s.rotations|, s.tokens[t].family;
            var s' := Run(s, [StartRotation(t), ClaimStep(n), RevokeStep(n)]);
            && Live(s', other) == (if other == family then 0 else Live(s, other))
            && Claimed(s', other) == Claimed(s, other)
            && s'.claims == s.claims
  {
    var n, family := |s.rotations|, s.tokens[t].family;
    RunThree(s, StartRotation(t), ClaimStep(n), RevokeStep(n));
    ReplayIsFound(s, t);
    var found := s.(rotations := s.rotations + [FoundReuse(family)]);
    MoveCounts(found, n, Finished, other);
    SumAppend(s.rotations, FoundReuse(family), ClaimedRotation(other));
    RevokeFamilyCounts(s.tokens, family, other);
  }

  /** In every run, logging out with a live token ends its family for good. */
  lemma LogoutEndsTheFamily(steps: seq<Step>, t: nat)
    requires Claims(Run(START, steps).tokens, t)
    ensures var s := Run(START, steps);
            DeadForever(Next(s, Logout(t)), s.tokens[t].family)
  {
    var s := Run(START, steps);
    var family := s.tokens[t].family;
    OneTokenPerFamily(steps, family);
    CountsAreNatural(s, family);
    assert LiveToken(family)(s.tokens[t]) == 1;
    ClaimCounts(s.tokens, t, family);
    DeadIffNothingInFlight(Next(s, Logout(t)), family);
  }

  /** So does a rotation that claims its token and never issues the next one. */
  lemma AbandoningEndsTheFamily(steps: seq<Step>, k: nat, family: nat)
    requires RotationAt(Run(START, steps), k) == HasClaimed(family)
    ensures DeadForever(Next(Run(START, steps), Abandon(k)), family)
  {
    var s := Run(START, steps);
    OneTokenPerFamily(steps, family);
    CountsAreNatural(s, family);
    assert ClaimedRotation(family)(s.rotations[k]) == 1;
    MoveCounts(s, k, Finished, family);
    DeadIffNothingInFlight(Next(s, Abandon(k)), family);
  }

  lemma BothRead() returns (steps: seq<Step>)
    ensures Run(START, steps) == State([Token(0, false)], [HasRead(0), HasRead(0)], 1, [])
  {
    steps := [CreateSession];
    RunSnoc(START, [], CreateSession);
    RunSnoc(START, steps, StartRotation(0));
    RunSnoc(START, steps + [StartRotation(0)], StartRotation(0));
    steps := steps + [StartRotation(0)] + [StartRotation(0)];
  }

  lemma BothTried() returns (steps: seq<Step>)
    ensures Run(START, steps) == State([Token(0, true)], [HasClaimed(0), FoundReuse(0)], 1, [0])
  {
    steps := BothRead();
    RunSnoc(START, steps, ClaimStep(0));
    RunSnoc(START, steps + [ClaimStep(0)], ClaimStep(1));
    steps := steps + [ClaimStep(0)] + [ClaimStep(1)];
  }

  lemma RevokingFinishes(s: State, k: nat, family: nat)
    requires RotationAt(s, k) == FoundReuse(family)
    ensures Next(s, RevokeStep(k)) ==
            s.(tokens := RevokeFamily(s.tokens, family), rotations := s.rotations[k := Finished])
  {
  }

  lemma RevokingRevoked(family: nat)
    ensures RevokeFamily([Token(family, true)], family) == [Token(family, true)]
  {
    assert [Token(family, true)][..0] == [];
  }

  lemma LoserRevokes() returns (steps: seq<Step>)
    ensures RevokeStep(1) in steps
    ensures Run(START, steps) == State([Token(0, true)], [HasClaimed(0), Finished], 1, [0])
  {
    var trying := BothTried();
    RunSnoc(START, trying, RevokeStep(1));
    RevokingFinishes(Run(START, trying), 1, 0);
    RevokingRevoked(0);
    steps := trying + [RevokeStep(1)];
  }

  /** Two requests with one token: the loser revokes the family, and the winner's new token survives it. */
  lemma ReplayCanLeaveATokenAlive() returns (steps: seq<Step>)
    ensures RevokeStep(1) in steps && Live(Run(START, steps), 0) == 1
  {
    var revoking := LoserRevokes();
    var s := Run(START, revoking);
    var issuing := IssuingRevives(s, 0, 0);
    RunConcat(START, revoking, issuing);
    SumOne(Token(0, true), LiveToken(0));
    steps := revoking + issuing;
  }
}
