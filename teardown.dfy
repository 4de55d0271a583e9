/** The close calls Service.Close and App.Close make (service.go:131-140,
    native.go:169-175), recorded as a trace of events. */
module Teardown {
  import opened Wrappers

  /** Identifies a registered controller; a nil controller is `None`. */
  type ControllerId = nat

  datatype Event = ControllerClosed(id: ControllerId) | ServerClosed | UiClosed

  /** The log of close calls, in the order they are made. */
  class Trace {
    var events: seq<Event>

    constructor ()
      ensures events == []
    {
      events := [];
    }

    method Record(e: Event)
      modifies this
      ensures events == old(events) + [e]
    {
      events := events + [e];
    }
  }

  /** One Close call per non-nil entry of the registry, in registration order. */
  function CloseEvents(cs: seq<Option<ControllerId>>): (es: seq<Event>)
    ensures |es| <= |cs|
    ensures forall e :: e in es ==> e.ControllerClosed?
    decreases |cs|
  {
    if cs == [] then []
    else
      var last := cs[|cs| - 1];
      CloseEvents(cs[..|cs| - 1]) + (if last.Some? then [ControllerClosed(last.value)] else [])
  }

  /** Service.Close: every controller's close, then the server's. */
  function ServiceCloseEvents(cs: seq<Option<ControllerId>>): (es: seq<Event>)
    ensures |es| > 0 && es[|es| - 1] == ServerClosed
    ensures forall k :: 0 <= k < |es| - 1 ==> es[k].ControllerClosed?
  {
    CloseEvents(cs) + [ServerClosed]
  }

  /** App.Close: the service's close, then the UI's when there is a UI. */
  function AppCloseEvents(cs: seq<Option<ControllerId>>, hasUi: bool): (es: seq<Event>)
    ensures |es| == |ServiceCloseEvents(cs)| + (if hasUi then 1 else 0)
    ensures es[..|ServiceCloseEvents(cs)|] == ServiceCloseEvents(cs)
    ensures hasUi ==> es[|es| - 1] == UiClosed
    ensures UiClosed in es <==> hasUi
    ensures es == CloseEvents(cs) + (if hasUi then [ServerClosed, UiClosed] else [ServerClosed])
  {
    ServiceCloseEvents(cs) + (if hasUi then [UiClosed] else [])
  }

  /** Closing a registry built in two parts closes the first part, then the second. */
  lemma {:induction false} CloseEventsAppend(a: seq<Option<ControllerId>>, b: seq<Option<ControllerId>>)
    ensures CloseEvents(a + b) == CloseEvents(a) + CloseEvents(b)
    decreases |b|
  {
    if b == [] {
      assert a + b == a;
    } else {
      var b' := b[..|b| - 1];
      assert (a + b)[..|a + b| - 1] == a + b';
      assert (a + b)[|a + b| - 1] == b[|b| - 1];
      CloseEventsAppend(a, b');
    }
  }

  /** Each registration of `c` yields exactly one Close of `c`; nil entries yield none. */
  lemma {:induction false} CloseCount(cs: seq<Option<ControllerId>>, c: ControllerId)
    ensures multiset(CloseEvents(cs))[ControllerClosed(c)] == multiset(cs)[Some(c)]
    decreases |cs|
  {
    if cs != [] {
      var init := cs[..|cs| - 1];
      assert cs == init + [cs[|cs| - 1]];
      CloseCount(init, c);
    }
  }

  /** How many non-nil controllers precede position `i`. */
  function Rank(cs: seq<Option<ControllerId>>, i: nat): (rank: nat)
    requires i <= |cs|
  {
    |CloseEvents(cs[..i])|
  }

  /** The controller registered at position `i` is closed as event number `Rank(cs, i)`. */
  lemma ClosedAt(cs: seq<Option<ControllerId>>, i: nat)
    requires i < |cs| && cs[i].Some?
    ensures Rank(cs, i) < |CloseEvents(cs)|
    ensures CloseEvents(cs)[Rank(cs, i)] == ControllerClosed(cs[i].value)
  {
    assert cs == cs[..i] + [cs[i]] + cs[i + 1..];
    CloseEventsAppend(cs[..i] + [cs[i]], cs[i + 1..]);
    CloseEventsAppend(cs[..i], [cs[i]]);
    var one := [cs[i]];
    assert one[..0] == [];
  }

  /** A controller registered earlier is closed earlier. */
  lemma RegistrationOrder(cs: seq<Option<ControllerId>>, i: nat, j: nat)
    requires i < j < |cs| && cs[i].Some?
    ensures Rank(cs, i) < Rank(cs, j)
  {
    assert cs[..j] == cs[..i] + [cs[i]] + cs[i + 1..j];
    CloseEventsAppend(cs[..i] + [cs[i]], cs[i + 1..j]);
    CloseEventsAppend(cs[..i], [cs[i]]);
    var one := [cs[i]];
    assert one[..0] == [];
  }

  /** Registering A, B and C and closing closes A, then B, then C; a nil entry is skipped. */
  lemma ScenarioThreeControllers(a: ControllerId, b: ControllerId, c: ControllerId)
    ensures ServiceCloseEvents([Some(a), Some(b), Some(c)]) ==
      [ControllerClosed(a), ControllerClosed(b), ControllerClosed(c), ServerClosed]
    ensures ServiceCloseEvents([Some(a), None, Some(c)]) ==
      [ControllerClosed(a), ControllerClosed(c), ServerClosed]
  {
    var none: seq<Option<ControllerId>> := [];
    assert CloseEvents([Some(a)]) == [ControllerClosed(a)] by {
      assert [Some(a)][..0] == none;
    }
    assert CloseEvents([Some(a), Some(b)]) == [ControllerClosed(a), ControllerClosed(b)] by {
      assert [Some(a), Some(b)][..1] == [Some(a)];
    }
    assert CloseEvents([Some(a), Some(b), Some(c)]) == [ControllerClosed(a), ControllerClosed(b), ControllerClosed(c)] by {
      assert [Some(a), Some(b), Some(c)][..2] == [Some(a), Some(b)];
    }
    assert CloseEvents([Some(a), None]) == [ControllerClosed(a)] by {
      assert [Some(a), None][..1] == [Some(a)];
    }
    assert CloseEvents([Some(a), None, Some(c)]) == [ControllerClosed(a), ControllerClosed(c)] by {
      assert [Some(a), None, Some(c)][..2] == [Some(a), None];
    }
  }
}
