/** Behaviour of the built-in strategies, single decisions and whole sequences of them. */
module StrategyLaws {
  import opened Wrappers
  import opened Protocol
  import opened Streams
  import opened Strategies

  /** What a strategy is shown before one `next_move`: (my last action, opponent's last action). */
  type Observation = (Option<Action>, Option<Action>)

  /** The outcome of a run of `next_move` calls: the actions returned, and the final fields and cursor. */
  datatype Trace = Trace(actions: seq<Action>, state: StrategyState, cursor: nat)

  /** Feed `obs` to `next_move` one after another, starting from fields `s` and cursor `cursor`. */
  function Replay(k: Kind, s: StrategyState, stream: Stream, cursor: nat, obs: seq<Observation>): Trace
  {
    if obs == [] then Trace([], s, cursor)
    else
      var t := Replay(k, s, stream, cursor, obs[..|obs| - 1]);
      var d := NextMoveOf(k, t.state, obs[|obs| - 1].0, obs[|obs| - 1].1, stream, t.cursor);
      Trace(t.actions + [d.action], d.state, d.cursor)
  }

  /** One action per observation, and a prefix of the observations yields a prefix of the actions. */
  lemma {:induction false} ReplayPrefix(k: Kind, s: StrategyState, stream: Stream, cursor: nat,
                                        obs: seq<Observation>, i: nat)
    requires i <= |obs|
    ensures |Replay(k, s, stream, cursor, obs).actions| == |obs|
    ensures Replay(k, s, stream, cursor, obs[..i]).actions == Replay(k, s, stream, cursor, obs).actions[..i]
  {
    if obs != [] {
      var n := |obs| - 1;
      ReplayPrefix(k, s, stream, cursor, obs[..n], if i <= n then i else n);
      assert obs[..n][..(if i <= n then i else n)] == obs[..(if i <= n then i else n)];
      if i == |obs| {
        assert obs[..i] == obs;
      }
    } else {
      assert obs[..i] == obs;
    }
  }

  /** The i-th action of a replay is the decision taken after the first i observations. */
  lemma ReplayAt(k: Kind, s: StrategyState, stream: Stream, cursor: nat, obs: seq<Observation>, i: nat)
    requires i < |obs|
    ensures |Replay(k, s, stream, cursor, obs).actions| == |obs|
    ensures
      var t := Replay(k, s, stream, cursor, obs[..i]);
      Replay(k, s, stream, cursor, obs).actions[i] ==
        NextMoveOf(k, t.state, obs[i].0, obs[i].1, stream, t.cursor).action
  {
    ReplayPrefix(k, s, stream, cursor, obs, i + 1);
    assert obs[..i + 1][..i] == obs[..i];
  }

  // ---- ALLC and ALLD ----

  /** ALLC cooperates and ALLD defects, on the first move and on every later one, with no draw. */
  lemma ConstantStrategies(s: StrategyState, myLast: Option<Action>, oppLast: Option<Action>,
                           stream: Stream, cursor: nat)
    ensures FirstMoveOf(AllCooperate, s, stream, cursor) == Decision(C, s, cursor)
    ensures NextMoveOf(AllCooperate, s, myLast, oppLast, stream, cursor) == Decision(C, s, cursor)
    ensures FirstMoveOf(AllDefect, s, stream, cursor) == Decision(D, s, cursor)
    ensures NextMoveOf(AllDefect, s, myLast, oppLast, stream, cursor) == Decision(D, s, cursor)
  {
  }

  /** The stateless variants that keep the base `first_move` answer exactly as `next_move(None, None)`. */
  lemma StatelessFirstMoveDelegates(k: Kind, s: StrategyState, stream: Stream, cursor: nat)
    requires k.AllCooperate? || k.AllDefect? || k.RandomStrategy?
    ensures FirstMoveOf(k, s, stream, cursor) == NextMoveOf(k, s, None, None, stream, cursor)
  {
  }

  /** The stateless variants' `reset` changes no field. */
  lemma StatelessResetKeepsState(k: Kind, s: StrategyState)
    requires !k.TitForTwoTats? && !k.GrimTrigger? && !k.Pavlov?
    ensures ResetOf(k, s) == s
  {
  }

  // ---- TFT ----

  /** TFT opens with C and then repeats the opponent's last action (C when there is none). */
  lemma TitForTatMirrors(s: StrategyState, myLast: Option<Action>, oppLast: Option<Action>,
                         stream: Stream, cursor: nat)
    ensures FirstMoveOf(TitForTat, s, stream, cursor) == Decision(C, s, cursor)
    ensures NextMoveOf(TitForTat, s, myLast, oppLast, stream, cursor) ==
            Decision(if oppLast.None? then C else oppLast.value, s, cursor)
  {
  }

  // ---- TF2T ----

  /** How many observations at the end of `obs` show an opponent defection. */
  function TrailingDefections(obs: seq<Observation>): nat
  {
    if obs == [] then 0
    else if obs[|obs| - 1].1 == Some(D) then TrailingDefections(obs[..|obs| - 1]) + 1
    else 0
  }

  /** TF2T's `reset` and `first_move` clear the streak; `first_move` answers C. */
  lemma TitForTwoTatsRestart(s: StrategyState, stream: Stream, cursor: nat)
    ensures ResetOf(TitForTwoTats, s).defectionStreak == 0
    ensures FirstMoveOf(TitForTwoTats, s, stream, cursor) == Decision(C, s.(defectionStreak := 0), cursor)
  {
  }

  /** From a cleared streak, the streak is the number of trailing opponent defections. */
  lemma {:induction false} TitForTwoTatsStreak(s: StrategyState, stream: Stream, cursor: nat,
                                               obs: seq<Observation>)
    requires s.defectionStreak == 0
    ensures Replay(TitForTwoTats, s, stream, cursor, obs).state.defectionStreak == TrailingDefections(obs)
    ensures Replay(TitForTwoTats, s, stream, cursor, obs).cursor == cursor
  {
    if obs != [] {
      TitForTwoTatsStreak(s, stream, cursor, obs[..|obs| - 1]);
    }
  }

  /**
   * After a cleared streak, TF2T defects at a step exactly when the opponent's
   * last two observed actions were both D.
   */
  lemma TitForTwoTatsNeedsTwoDefections(s: StrategyState, stream: Stream, cursor: nat,
                                        obs: seq<Observation>, i: nat)
    requires s.defectionStreak == 0 && i < |obs|
    ensures |Replay(TitForTwoTats, s, stream, cursor, obs).actions| == |obs|
    ensures Replay(TitForTwoTats, s, stream, cursor, obs).actions[i] == D <==>
              (1 <= i && obs[i - 1].1 == Some(D) && obs[i].1 == Some(D))
  {
    ReplayAt(TitForTwoTats, s, stream, cursor, obs, i);
    TitForTwoTatsStreak(s, stream, cursor, obs[..i]);
    if 1 <= i {
      assert obs[..i][..i - 1] == obs[..i - 1];
    }
  }

  // ---- GRIM ----

  /** GRIM's `reset` and `first_move` clear the flag; `first_move` answers C. */
  lemma GrimTriggerRestart(s: StrategyState, stream: Stream, cursor: nat)
    ensures !ResetOf(GrimTrigger, s).betrayed
    ensures FirstMoveOf(GrimTrigger, s, stream, cursor) == Decision(C, s.(betrayed := false), cursor)
  {
  }

  /** Whether some observation in `obs` shows an opponent defection. */
  predicate SawDefection(obs: seq<Observation>)
  {
    exists j :: 0 <= j < |obs| && obs[j].1 == Some(D)
  }

  /** From a cleared flag, the flag is set exactly when some opponent defection was observed. */
  lemma {:induction false} GrimTriggerFlag(s: StrategyState, stream: Stream, cursor: nat,
                                           obs: seq<Observation>)
    requires !s.betrayed
    ensures Replay(GrimTrigger, s, stream, cursor, obs).state.betrayed <==> SawDefection(obs)
  {
    if obs != [] {
      var n := |obs| - 1;
      GrimTriggerFlag(s, stream, cursor, obs[..n]);
      if SawDefection(obs[..n]) {
        var j :| 0 <= j < n && obs[..n][j].1 == Some(D);
        assert obs[j].1 == Some(D);
      }
      if SawDefection(obs) && obs[n].1 != Some(D) {
        var j :| 0 <= j < |obs| && obs[j].1 == Some(D);
        assert obs[..n][j].1 == Some(D);
      }
    }
  }

  /**
   * After a cleared flag, GRIM defects at step i exactly when the opponent
   * defected at some step up to i: one defection makes every later answer D.
   */
  lemma GrimTriggerNeverForgives(s: StrategyState, stream: Stream, cursor: nat,
                                 obs: seq<Observation>, i: nat)
    requires !s.betrayed && i < |obs|
    ensures |Replay(GrimTrigger, s, stream, cursor, obs).actions| == |obs|
    ensures Replay(GrimTrigger, s, stream, cursor, obs).actions[i] == D <==> SawDefection(obs[..i + 1])
  {
    ReplayAt(GrimTrigger, s, stream, cursor, obs, i);
    GrimTriggerFlag(s, stream, cursor, obs[..i]);
    GrimTriggerFlag(s, stream, cursor, obs[..i + 1]);
    ReplayPrefix(GrimTrigger, s, stream, cursor, obs, i + 1);
    assert obs[..i + 1][..i] == obs[..i];
  }

  // ---- PAVLOV ----

  /**
   * PAVLOV opens with C; with any history missing it answers C; it repeats its
   * own action when both last actions agreed, and switches otherwise.
   */
  lemma PavlovWinStayLoseShift(s: StrategyState, myLast: Option<Action>, oppLast: Option<Action>,
                               stream: Stream, cursor: nat)
    ensures FirstMoveOf(Pavlov, s, stream, cursor).action == C
    ensures FirstMoveOf(Pavlov, s, stream, cursor).state.lastAction == C
    ensures myLast.None? || oppLast.None? ==> NextMoveOf(Pavlov, s, myLast, oppLast, stream, cursor).action == C
    ensures myLast.Some? && oppLast.Some? && IsMove(myLast.value) && IsMove(oppLast.value) ==>
              NextMoveOf(Pavlov, s, myLast, oppLast, stream, cursor).action ==
                (if myLast == oppLast then myLast.value else if myLast.value == C then D else C)
    ensures NextMoveOf(Pavlov, s, myLast, oppLast, stream, cursor).state == s
    ensures NextMoveOf(Pavlov, s, myLast, oppLast, stream, cursor).cursor == cursor
  {
  }

  // ---- RAND ----

  /** Every RAND decision, the first included, consumes one draw and cooperates iff the draw is at most p. */
  lemma RandomStrategyDraws(p: real, s: StrategyState, myLast: Option<Action>, oppLast: Option<Action>,
                            stream: Stream, cursor: nat)
    ensures FirstMoveOf(RandomStrategy(p), s, stream, cursor).cursor == cursor + 1
    ensures NextMoveOf(RandomStrategy(p), s, myLast, oppLast, stream, cursor).cursor == cursor + 1
    ensures FirstMoveOf(RandomStrategy(p), s, stream, cursor).action == C <==> stream(cursor) <= p
    ensures NextMoveOf(RandomStrategy(p), s, myLast, oppLast, stream, cursor).action == C <==> stream(cursor) <= p
    ensures IsMove(NextMoveOf(RandomStrategy(p), s, myLast, oppLast, stream, cursor).action)
  {
  }

  /** RAND(1.0) always cooperates; RAND(0.0) defects unless the draw is exactly 0. */
  lemma RandomStrategyExtremes(s: StrategyState, myLast: Option<Action>, oppLast: Option<Action>,
                               stream: Stream, cursor: nat)
    ensures NextMoveOf(RandomStrategy(1.0), s, myLast, oppLast, stream, cursor).action == C
    ensures NextMoveOf(RandomStrategy(0.0), s, myLast, oppLast, stream, cursor).action == D <==>
              stream(cursor) != 0.0
  {
  }

  // ---- GTFT ----

  /** GTFT's first move is C and draws nothing. */
  lemma GenerousFirstMove(fp: real, s: StrategyState, stream: Stream, cursor: nat)
    ensures FirstMoveOf(GenerousTitForTat(fp), s, stream, cursor) == Decision(C, s, cursor)
  {
  }

  /**
   * GTFT answers anything but an opponent D like TFT, without a draw; after an
   * opponent D it draws once and forgives iff the draw is at most `forgive_p`.
   */
  lemma GenerousTitForTatForgives(fp: real, s: StrategyState, myLast: Option<Action>,
                                  oppLast: Option<Action>, stream: Stream, cursor: nat)
    ensures oppLast != Some(D) ==>
              NextMoveOf(GenerousTitForTat(fp), s, myLast, oppLast, stream, cursor) ==
                Decision(if oppLast.None? then C else oppLast.value, s, cursor)
    ensures oppLast == Some(D) ==>
              NextMoveOf(GenerousTitForTat(fp), s, myLast, oppLast, stream, cursor) ==
                Decision(if stream(cursor) <= fp then C else D, s, cursor + 1)
    ensures oppLast == Some(D) && fp >= 1.0 ==>
              NextMoveOf(GenerousTitForTat(fp), s, myLast, oppLast, stream, cursor).action == C
  {
  }
}
