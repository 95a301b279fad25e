/**
 * The built-in strategies. The source has one class per strategy behind a
 * small protocol (`reset`, `first_move`, `next_move`); here the variants form a
 * closed tagged union `Kind`, and a single `Strategy` class carries the fields
 * the stateful variants keep: the defection streak of TF2T, the latched flag of
 * GRIM and the last action of the memory-one base class used by PAVLOV. A
 * variant leaves the fields it does not own at their initial values.
 *
 * Each operation is specified by a pure function of the strategy's fields, the
 * arguments and the random stream (`ResetOf`, `FirstMoveOf`, `NextMoveOf`).
 */
module Strategies {
  import opened Wrappers
  import opened Protocol
  import opened Streams

  datatype Kind =
    | AllCooperate
    | AllDefect
    | TitForTat
    | TitForTwoTats
    | GrimTrigger
    | Pavlov
    | RandomStrategy(p: real)
    | GenerousTitForTat(forgiveP: real)

  /** Whether a probability parameter passes the constructors' range check. */
  predicate InUnitInterval(x: real)
  {
    0.0 <= x <= 1.0
  }

  /** The constructors' validation: RAND and GTFT reject a probability outside [0, 1]. */
  function CheckKind(k: Kind): (r: Option<Error>)
    ensures r.None? <==>
              (k.RandomStrategy? ==> InUnitInterval(k.p)) &&
              (k.GenerousTitForTat? ==> InUnitInterval(k.forgiveP))
    ensures r.Some? && k.RandomStrategy? ==> r.value == ValueError("p must be between 0 and 1")
    ensures r.Some? && k.GenerousTitForTat? ==> r.value == ValueError("forgive_p must be between 0 and 1")
  {
    match k
    case RandomStrategy(p) =>
      if InUnitInterval(p) then None else Some(ValueError("p must be between 0 and 1"))
    case GenerousTitForTat(fp) =>
      if InUnitInterval(fp) then None else Some(ValueError("forgive_p must be between 0 and 1"))
    case _ => None
  }

  /**
   * The `name` each strategy passes to its base class. For RAND and GTFT the
   * source formats the probability with two decimals; `pText` stands for that text.
   */
  function NameOf(k: Kind, pText: string): (r: string)
    ensures r != ""
  {
    match k
    case AllCooperate => "ALLC"
    case AllDefect => "ALLD"
    case TitForTat => "TFT"
    case TitForTwoTats => "TF2T"
    case GrimTrigger => "GRIM"
    case Pavlov => "PAVLOV"
    case RandomStrategy(_) => "RAND(" + pText + ")"
    case GenerousTitForTat(_) => "GTFT(" + pText + ")"
  }

  /** The fields of a strategy object: TF2T's streak, GRIM's flag, PAVLOV's last action. */
  datatype StrategyState = StrategyState(defectionStreak: int, betrayed: bool, lastAction: Action)

  /** The fields' values right after construction (`0`, `False`, "C"). */
  const Initial := StrategyState(0, false, C)

  /** The initial action PAVLOV hands to its memory-one base class. */
  const PavlovInitialAction: Action := C

  /** A variant keeps the fields it does not own at their initial values. */
  predicate WellFormed(k: Kind, s: StrategyState)
  {
    && (!k.TitForTwoTats? ==> s.defectionStreak == 0)
    && (!k.GrimTrigger? ==> !s.betrayed)
    && (!k.Pavlov? ==> s.lastAction == C)
  }

  /** One decision: the action chosen, the strategy's new fields, the generator's new cursor. */
  datatype Decision = Decision(action: Action, state: StrategyState, cursor: nat)

  /** `reset`. */
  function ResetOf(k: Kind, s: StrategyState): (r: StrategyState)
    ensures WellFormed(k, s) ==> r == Initial
  {
    match k
    case TitForTwoTats => s.(defectionStreak := 0)
    case GrimTrigger => s.(betrayed := false)
    case Pavlov => s.(lastAction := PavlovInitialAction)
    case _ => s
  }

  /** `first_move(rng)`; the variants that do not override it delegate to `next_move(None, None, rng)`. */
  function FirstMoveOf(k: Kind, s: StrategyState, stream: Stream, cursor: nat): (d: Decision)
    ensures IsMove(d.action)
    ensures WellFormed(k, s) ==> WellFormed(k, d.state)
  {
    match k
    case TitForTat => Decision(C, s, cursor)
    case TitForTwoTats => Decision(C, s.(defectionStreak := 0), cursor)
    case GrimTrigger => Decision(C, s.(betrayed := false), cursor)
    case Pavlov => Decision(PavlovInitialAction, s.(lastAction := PavlovInitialAction), cursor)
    case GenerousTitForTat(_) => Decision(C, s, cursor)
    case _ => NextMoveOf(k, s, None, None, stream, cursor)
  }

  /** `next_move(my_last, opp_last, rng)`. */
  function NextMoveOf(k: Kind, s: StrategyState, myLast: Option<Action>, oppLast: Option<Action>,
                      stream: Stream, cursor: nat): (d: Decision)
    ensures IsMoveOrNone(myLast) && IsMoveOrNone(oppLast) ==> IsMove(d.action)
    ensures WellFormed(k, s) ==> WellFormed(k, d.state)
  {
    match k
    case AllCooperate => Decision(C, s, cursor)
    case AllDefect => Decision(D, s, cursor)
    case TitForTat => Decision(if oppLast.None? then C else oppLast.value, s, cursor)
    case TitForTwoTats =>
      var streak := if oppLast == Some(D) then s.defectionStreak + 1 else 0;
      Decision(if streak >= 2 then D else C, s.(defectionStreak := streak), cursor)
    case GrimTrigger =>
      var betrayed := s.betrayed || oppLast == Some(D);
      Decision(if betrayed then D else C, s.(betrayed := betrayed), cursor)
    case Pavlov =>
      var a :=
        if myLast.None? || oppLast.None? then C
        else if myLast.value == oppLast.value then myLast.value
        else if myLast.value == C then D
        else C;
      Decision(a, s, cursor)
    case RandomStrategy(p) =>
      Decision(if stream(cursor) <= p then C else D, s, cursor + 1)
    case GenerousTitForTat(fp) =>
      if oppLast != Some(D) then Decision(if oppLast.None? then C else oppLast.value, s, cursor)
      else Decision(if stream(cursor) <= fp then C else D, s, cursor + 1)
  }

  /** A strategy object. */
  class Strategy {
    const kind: Kind
    const name: string
    var defectionStreak: int
    var betrayed: bool
    var lastAction: Action

    function State(): StrategyState
      reads this
    {
      StrategyState(defectionStreak, betrayed, lastAction)
    }

    /** A strategy whose parameter passed validation, in its initial state. */
    constructor (kind: Kind, pText: string)
      requires CheckKind(kind).None?
      ensures this.kind == kind && name == NameOf(kind, pText) && State() == Initial
    {
      this.kind := kind;
      name := NameOf(kind, pText);
      defectionStreak := 0;
      betrayed := false;
      lastAction := C;
    }

    /** Construction as the source does it: a probability outside [0, 1] raises. */
    static method Create(kind: Kind, pText: string) returns (r: Result<Strategy>)
      ensures r.Err? <==> CheckKind(kind).Some?
      ensures r.Err? ==> r.error == CheckKind(kind).value
      ensures r.Ok? ==> fresh(r.value) && r.value.kind == kind && r.value.name == NameOf(kind, pText)
      ensures r.Ok? ==> r.value.State() == Initial
    {
      var check := CheckKind(kind);
      if check.Some? {
        return Err(check.value);
      }
      var s := new Strategy(kind, pText);
      return Ok(s);
    }

    /** `reset`: TF2T clears its streak, GRIM its flag, PAVLOV restores its initial action. */
    method Reset()
      modifies this
      ensures State() == ResetOf(kind, old(State()))
    {
      match kind
      case TitForTwoTats => defectionStreak := 0;
      case GrimTrigger => betrayed := false;
      case Pavlov => lastAction := PavlovInitialAction;
      case _ =>
    }

    /** `first_move(rng)`. */
    method FirstMove(rng: Rng) returns (a: Action)
      modifies this, rng
      ensures a == FirstMoveOf(kind, old(State()), rng.stream, old(rng.cursor)).action
      ensures State() == FirstMoveOf(kind, old(State()), rng.stream, old(rng.cursor)).state
      ensures rng.cursor == FirstMoveOf(kind, old(State()), rng.stream, old(rng.cursor)).cursor
    {
      match kind
      case TitForTat => a := C;
      case TitForTwoTats =>
        defectionStreak := 0;
        a := C;
      case GrimTrigger =>
        betrayed := false;
        a := C;
      case Pavlov =>
        lastAction := PavlovInitialAction;
        a := lastAction;
      case GenerousTitForTat(_) => a := C;
      case _ => a := NextMove(None, None, rng);
    }

    /** `next_move(my_last, opp_last, rng)`. */
    method NextMove(myLast: Option<Action>, oppLast: Option<Action>, rng: Rng) returns (a: Action)
      modifies this, rng
      ensures a == NextMoveOf(kind, old(State()), myLast, oppLast, rng.stream, old(rng.cursor)).action
      ensures State() == NextMoveOf(kind, old(State()), myLast, oppLast, rng.stream, old(rng.cursor)).state
      ensures rng.cursor == NextMoveOf(kind, old(State()), myLast, oppLast, rng.stream, old(rng.cursor)).cursor
    {
      match kind
      case AllCooperate => a := C;
      case AllDefect => a := D;
      case TitForTat => a := if oppLast.None? then C else oppLast.value;
      case TitForTwoTats =>
        if oppLast == Some(D) {
          defectionStreak := defectionStreak + 1;
        } else {
          defectionStreak := 0;
        }
        a := if defectionStreak >= 2 then D else C;
      case GrimTrigger =>
        if oppLast == Some(D) {
          betrayed := true;
        }
        a := if betrayed then D else C;
      case Pavlov =>
        if myLast.None? || oppLast.None? {
          a := C;
        } else if myLast.value == oppLast.value {
          a := myLast.value;
        } else {
          a := if myLast.value == C then D else C;
        }
      case RandomStrategy(p) =>
        var draw := rng.Random();
        a := if draw <= p then C else D;
      case GenerousTitForTat(fp) =>
        if oppLast != Some(D) {
          a := if oppLast.None? then C else oppLast.value;
        } else {
          var draw := rng.Random();
          a := if draw <= fp then C else D;
        }
    }

    /** `record(action)` of the memory-one base class: only the last action changes. */
    method Record(action: Action)
      requires kind.Pavlov?
      modifies this
      ensures State() == old(State()).(lastAction := action)
    {
      lastAction := action;
    }
  }
}
