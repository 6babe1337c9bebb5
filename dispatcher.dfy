/**
 * MessageDispatcher and the MessageHandler interface it routes through: an
 * ordered list of handlers, where a command goes to the first handler whose
 * `handle` claims it and no later handler runs.
 */
module Dispatcher {
  import opened Wrappers
  import opened Host
  import opened BaseHandler
  import Sessions
  import Skills
  import History

  /**
   * A registered MessageHandler: one of the three handler classes of the package,
   * or `Other`, any other implementation, known only by what the dispatcher can
   * observe of it: the types it declares and the set of types its `handle` claims.
   */
  datatype Handler =
    | SessionH(session: Sessions.SessionHandler)
    | SkillH(skill: Skills.SkillHandler)
    | HistoryH(history: History.HistoryHandler)
    | Other(declared: seq<string>, claimed: set<string>)

  /** getSupportedTypes(): the three classes declare a non-empty array without repeated tags. */
  function SupportedTypes(h: Handler): (types: seq<string>)
    ensures h.Other? ==> types == h.declared
    ensures !h.Other? ==> |types| > 0 && forall i, j :: 0 <= i < j < |types| ==> types[i] != types[j]
  {
    match h
    case SessionH(_) => Sessions.SupportedTypes
    case SkillH(_) => Skills.SupportedTypes
    case HistoryH(_) => History.SupportedTypes
    case Other(declared, _) => declared
  }

  /**
   * Whether `handle(msgType, content)` returns true; the classes' Handle methods
   * are proved to agree. A class's handle claims a type iff it declares it.
   */
  predicate Claims(h: Handler, msgType: string)
    ensures !h.Other? ==> (Claims(h, msgType) <==> MatchesType(msgType, SupportedTypes(h)))
    ensures h.Other? ==> (Claims(h, msgType) <==> msgType in h.claimed)
  {
    match h
    case SessionH(_) => msgType in Sessions.SupportedTypes
    case SkillH(_) => msgType in Skills.SupportedTypes
    case HistoryH(_) => msgType in History.SupportedTypes
    case Other(_, claimed) => msgType in claimed
  }

  /** A handler whose `handle` claims exactly the types it declares. */
  ghost predicate Honest(h: Handler) {
    forall t :: Claims(h, t) <==> MatchesType(t, SupportedTypes(h))
  }

  /** Some handler of the list declares the type (what hasHandlerFor scans for): some tag of some handler equals it. */
  predicate Declares(hs: seq<Handler>, msgType: string)
    ensures Declares(hs, msgType) <==>
              exists i, j :: 0 <= i < |hs| && 0 <= j < |SupportedTypes(hs[i])| && SupportedTypes(hs[i])[j] == msgType
  {
    exists i :: 0 <= i < |hs| && MatchesType(msgType, SupportedTypes(hs[i]))
  }

  /** The position of the first handler that claims the type; |hs| when none does. */
  function FirstClaimant(hs: seq<Handler>, msgType: string): (k: nat)
    ensures k <= |hs|
    ensures forall j :: 0 <= j < k ==> !Claims(hs[j], msgType)
    ensures k < |hs| ==> Claims(hs[k], msgType)
  {
    if |hs| == 0 then 0
    else if Claims(hs[0], msgType) then 0
    else 1 + FirstClaimant(hs[1..], msgType)
  }

  function ContextOf(h: Handler): HandlerContext
    requires !h.Other?
  {
    match h
    case SessionH(s) => s.context
    case SkillH(k) => k.context
    case HistoryH(y) => y.context
  }

  /** The objects a handler's `handle` may change. */
  function FootprintOf(h: Handler): set<object> {
    if h.Other? then {} else {ContextOf(h), ContextOf(h).session}
  }

  /** The handler's step on its context: what its `handle` does to the state before. */
  function StepOf(h: Handler, st: State, msgType: string, content: string, env: Env, replies: Replies): State
    requires !h.Other?
    reads if h.HistoryH? then {h.history} else {}
  {
    match h
    case SessionH(_) => Sessions.Step(st, msgType, content, env, replies)
    case SkillH(_) => Skills.Step(st, msgType, env, replies)
    case HistoryH(y) => History.Step(st, y.sessionLoadCallback, msgType, content, env, replies)
  }

  /** Calls the handler's `handle`: it claims per `Claims`, and changes nothing when it does not claim. */
  method Invoke(h: Handler, msgType: string, content: string, env: Env, replies: Replies) returns (claimed: bool)
    modifies FootprintOf(h)
    ensures claimed == Claims(h, msgType)
    ensures !claimed ==> unchanged(FootprintOf(h))
    ensures !h.Other? ==> ContextOf(h).Snapshot() == StepOf(h, old(ContextOf(h).Snapshot()), msgType, content, env, replies)
  {
    match h {
      case SessionH(s) =>
        claimed := s.Handle(msgType, content, env, replies);
      case SkillH(k) =>
        claimed := k.Handle(msgType, content, env, replies);
      case HistoryH(y) =>
        claimed := y.Handle(msgType, content, env, replies);
      case Other(_, claimedTypes) =>
        claimed := msgType in claimedTypes;
    }
  }

  class MessageDispatcher {
    var handlers: seq<Handler>

    constructor ()
      ensures handlers == []
    {
      handlers := [];
    }

    /** Everything the registered handlers may change. */
    ghost function Footprint(): set<object>
      reads this
    {
      set i, o | 0 <= i < |handlers| && o in FootprintOf(handlers[i]) :: o
    }

    /** Appends; registration order is priority order, and a handler may be registered twice. */
    method RegisterHandler(handler: Handler)
      modifies this
      ensures handlers == old(handlers) + [handler]
    {
      handlers := handlers + [handler];
    }

    /**
     * Offers the command to the handlers in order. It is handled iff some handler
     * claims it; then exactly the first claimant's step happens and nothing any
     * other handler could change is changed; otherwise nothing changes.
     */
    method Dispatch(msgType: string, content: string, env: Env, replies: Replies) returns (handled: bool)
      modifies Footprint()
      ensures handlers == old(handlers)
      ensures handled <==> exists i :: 0 <= i < |handlers| && Claims(handlers[i], msgType)
      ensures handled ==>
                var h := handlers[FirstClaimant(handlers, msgType)];
                && (!h.Other? ==> ContextOf(h).Snapshot() == StepOf(h, old(ContextOf(h).Snapshot()), msgType, content, env, replies))
                && unchanged(Footprint() - FootprintOf(h))
      ensures !handled ==> unchanged(Footprint())
    {
      var i := 0;
      while i < |handlers|
        invariant 0 <= i <= |handlers|
        invariant forall j :: 0 <= j < i ==> !Claims(handlers[j], msgType)
        invariant unchanged(Footprint())
      {
        var h := handlers[i];
        assert FootprintOf(h) <= Footprint();
        var claimed := Invoke(h, msgType, content, env, replies);
        if claimed {
          assert FirstClaimant(handlers, msgType) == i;
          return true;
        }
        i := i + 1;
      }
      return false;
    }

    /** Scans the declared type arrays; never calls `handle`. */
    method HasHandlerFor(msgType: string) returns (found: bool)
      ensures found <==> Declares(handlers, msgType)
    {
      for i := 0 to |handlers|
        invariant forall j :: 0 <= j < i ==> !MatchesType(msgType, SupportedTypes(handlers[j]))
      {
        var supported := SupportedTypes(handlers[i]);
        for k := 0 to |supported|
          invariant forall m :: 0 <= m < k ==> supported[m] != msgType
        {
          if supported[k] == msgType {
            return true;
          }
        }
      }
      return false;
    }

    method GetHandlerCount() returns (count: nat)
      ensures count == |handlers|
    {
      count := |handlers|;
    }

    method Clear()
      modifies this
      ensures handlers == []
    {
      handlers := [];
    }
  }

  // ----- Properties of the routing -----

  /** With no handlers, or after `clear`, no command is claimed. */
  lemma EmptyListClaimsNothing(msgType: string)
    ensures FirstClaimant([], msgType) == 0 && !Declares([], msgType)
  {
  }

  /** The first claimant of a longer list is found among the old handlers unless none of them claims. */
  lemma {:induction false} RegisteringKeepsEarlierClaims(hs: seq<Handler>, h: Handler, msgType: string)
    ensures FirstClaimant(hs, msgType) < |hs| ==> FirstClaimant(hs + [h], msgType) == FirstClaimant(hs, msgType)
    ensures FirstClaimant(hs, msgType) == |hs| ==>
              FirstClaimant(hs + [h], msgType) == (if Claims(h, msgType) then |hs| else |hs| + 1)
  {
    if |hs| > 0 && !Claims(hs[0], msgType) {
      assert (hs + [h])[1..] == hs[1..] + [h];
      RegisteringKeepsEarlierClaims(hs[1..], h, msgType);
    }
  }

  /**
   * The three handler classes claim exactly the types they declare. This rests on
   * `Claims`; what ties `Claims` to the code is each class's `Handle`, whose
   * `handled <==> msgType in SupportedTypes` `Invoke` carries over.
   */
  lemma BuiltInHandlersAreHonest(h: Handler)
    requires !h.Other?
    ensures Honest(h)
  {
  }

  /** When every handler is honest, hasHandlerFor agrees with what dispatch would claim. */
  lemma HasHandlerForAgreesWithDispatch(hs: seq<Handler>, msgType: string)
    requires forall i :: 0 <= i < |hs| ==> Honest(hs[i])
    ensures Declares(hs, msgType) <==> FirstClaimant(hs, msgType) < |hs|
  {
    if Declares(hs, msgType) {
      var i :| 0 <= i < |hs| && MatchesType(msgType, SupportedTypes(hs[i]));
      assert Claims(hs[i], msgType);
    }
    if FirstClaimant(hs, msgType) < |hs| {
      var k := FirstClaimant(hs, msgType);
      assert MatchesType(msgType, SupportedTypes(hs[k]));
    }
  }

  /** Honesty is needed: a handler that declares a type its `handle` refuses breaks the agreement. */
  lemma DishonestHandlerBreaksAgreement()
    ensures var hs := [Other(["x"], {})];
            Declares(hs, "x") && FirstClaimant(hs, "x") == |hs|
  {
    var hs := [Other(["x"], {})];
    assert MatchesType("x", SupportedTypes(hs[0]));
  }

  /** No type is declared by two of the three handler classes. */
  lemma DeclaredTypesAreDisjoint(t: string)
    ensures !(t in Sessions.SupportedTypes && t in Skills.SupportedTypes)
    ensures !(t in Sessions.SupportedTypes && t in History.SupportedTypes)
    ensures !(t in Skills.SupportedTypes && t in History.SupportedTypes)
  {
  }

  /** Two handlers of the same class. */
  predicate SameClass(a: Handler, b: Handler) {
    a.SessionH? == b.SessionH? && a.SkillH? == b.SkillH? && a.HistoryH? == b.HistoryH? && a.Other? == b.Other?
  }

  /**
   * With only the three handler classes registered, in any order and any number,
   * each declared type is claimed, and by a handler of the class that declares it.
   */
  lemma {:induction false} OwnTypesGoToOwnHandler(hs: seq<Handler>, m: nat, msgType: string)
    requires forall i :: 0 <= i < |hs| ==> !hs[i].Other?
    requires m < |hs| && msgType in SupportedTypes(hs[m])
    ensures FirstClaimant(hs, msgType) <= m
    ensures SameClass(hs[FirstClaimant(hs, msgType)], hs[m])
  {
    assert Claims(hs[m], msgType);
    var k := FirstClaimant(hs, msgType);
    DeclaredTypesAreDisjoint(msgType);
  }

  /** After `clear`, every dispatch returns false and changes nothing. */
  method ClearedDispatcherHandlesNothing(d: MessageDispatcher, msgType: string, content: string, env: Env, replies: Replies)
    returns (handled: bool)
    modifies d
    ensures !handled && d.handlers == []
  {
    d.Clear();
    handled := d.Dispatch(msgType, content, env, replies);
  }
}
