/**
 * The inspector that adds a button for every parameterless instance
 * method marked [Button] and invokes the method when its button is
 * clicked. The host's reflection gives the methods; the GUI gives which
 * buttons are clicked this frame; an invoked method may throw, and
 * nothing catches the exception, so it ends the frame.
 */
module ButtonAttributeEditor {

  import opened Wrappers
  import opened Reflection

  /** What one inspector frame does, in order. */
  datatype InspectorEvent =
    | DefaultInspector
    | Button(caption: string)
    | Invoke(methodName: string)

  /** GetMethods(Public | NonPublic | Instance): the instance methods, in enumeration order. */
  function InstanceMethods(methods: seq<MethodDesc>): (r: seq<MethodDesc>)
    ensures forall m :: m in r <==> m in methods && !m.isStatic
  {
    if methods == [] then []
    else
      var rest := InstanceMethods(methods[..|methods| - 1]);
      var m := methods[|methods| - 1];
      assert forall x :: x in methods <==> x in methods[..|methods| - 1] || x == m;
      if m.isStatic then rest else rest + [m]
  }

  /** A method gets a button when it declares [Button] itself and takes no parameters (the enumeration already excludes statics). */
  predicate HasButton(m: MethodDesc) {
    !m.isStatic && m.declaresButton && m.parameterCount == 0
  }

  /** The events of the method at enumeration index i. */
  function MethodEvents(m: MethodDesc, isClicked: bool): seq<InspectorEvent> {
    if HasButton(m) then [Button(m.name)] + (if isClicked then [Invoke(m.name)] else []) else []
  }

  /** Invoking the method at index i throws. */
  predicate Throws(m: MethodDesc, i: nat, clicked: set<nat>, throwing: set<nat>) {
    HasButton(m) && i in clicked && i in throwing
  }

  /**
   * The loop over the enumerated methods: the events so far and whether
   * an invocation threw, after which no later method is looked at.
   */
  function Loop(methods: seq<MethodDesc>, clicked: set<nat>, throwing: set<nat>): (seq<InspectorEvent>, bool) {
    if methods == [] then ([], false)
    else
      var (events, thrown) := Loop(methods[..|methods| - 1], clicked, throwing);
      var i := |methods| - 1;
      if thrown then (events, true)
      else (events + MethodEvents(methods[i], i in clicked), Throws(methods[i], i, clicked, throwing))
  }

  /** The labels of the buttons among the events. */
  function ButtonLabels(events: seq<InspectorEvent>): seq<string> {
    if events == [] then []
    else
      var last := events[|events| - 1];
      ButtonLabels(events[..|events| - 1]) + (if last.Button? then [last.caption] else [])
  }

  /** The names of the invoked methods among the events. */
  function InvokedNames(events: seq<InspectorEvent>): seq<string> {
    if events == [] then []
    else
      var last := events[|events| - 1];
      InvokedNames(events[..|events| - 1]) + (if last.Invoke? then [last.methodName] else [])
  }

  /** The names of the methods that get a button, in order. */
  function ButtonMethodNames(methods: seq<MethodDesc>): seq<string> {
    if methods == [] then []
    else
      var last := methods[|methods| - 1];
      ButtonMethodNames(methods[..|methods| - 1]) + (if HasButton(last) then [last.name] else [])
  }

  /** The names of the methods that get a button and whose button is clicked, in order. */
  function ClickedMethodNames(methods: seq<MethodDesc>, clicked: set<nat>): seq<string> {
    if methods == [] then []
    else
      var i := |methods| - 1;
      ClickedMethodNames(methods[..i], clicked) + (if HasButton(methods[i]) && i in clicked then [methods[i].name] else [])
  }

  lemma {:induction false} ButtonLabelsAppend(a: seq<InspectorEvent>, b: seq<InspectorEvent>)
    ensures ButtonLabels(a + b) == ButtonLabels(a) + ButtonLabels(b)
    ensures InvokedNames(a + b) == InvokedNames(a) + InvokedNames(b)
    decreases |b|
  {
    if b == [] {
      assert a + b == a;
    } else {
      var b' := b[..|b| - 1];
      assert (a + b)[..|a + b| - 1] == a + b';
      assert (a + b)[|a + b| - 1] == b[|b| - 1];
      ButtonLabelsAppend(a, b');
    }
  }

  /** One method contributes its own button, and its invocation when clicked. */
  lemma MethodEventsLabels(m: MethodDesc, isClicked: bool)
    ensures ButtonLabels(MethodEvents(m, isClicked)) == if HasButton(m) then [m.name] else []
    ensures InvokedNames(MethodEvents(m, isClicked)) == if HasButton(m) && isClicked then [m.name] else []
  {
    if HasButton(m) {
      var b := [Button(m.name)];
      assert ButtonLabels(b) == [m.name] by {
        assert b[..0] == [];
      }
      assert InvokedNames(b) == [] by {
        assert b[..0] == [];
      }
      if isClicked {
        var e := b + [Invoke(m.name)];
        assert e[..1] == b;
      }
    }
  }

  /**
   * When no invocation throws, the frame shows one button per qualifying
   * method, captioned with its name and in enumeration order, and invokes
   * exactly the clicked ones, in order.
   */
  lemma {:induction false} LoopWithoutThrow(methods: seq<MethodDesc>, clicked: set<nat>, throwing: set<nat>)
    requires forall i :: 0 <= i < |methods| ==> !Throws(methods[i], i, clicked, throwing)
    ensures !Loop(methods, clicked, throwing).1
    ensures ButtonLabels(Loop(methods, clicked, throwing).0) == ButtonMethodNames(methods)
    ensures InvokedNames(Loop(methods, clicked, throwing).0) == ClickedMethodNames(methods, clicked)
  {
    if methods != [] {
      var i := |methods| - 1;
      var prefix := methods[..i];
      assert forall j :: 0 <= j < |prefix| ==> prefix[j] == methods[j];
      LoopWithoutThrow(prefix, clicked, throwing);
      var events := Loop(prefix, clicked, throwing).0;
      ButtonLabelsAppend(events, MethodEvents(methods[i], i in clicked));
      MethodEventsLabels(methods[i], i in clicked);
    }
  }

  /** Once an invocation has thrown, the later methods add nothing: the loop result is that of the prefix. */
  lemma {:induction false} LoopStopsAtThrow(methods: seq<MethodDesc>, clicked: set<nat>, throwing: set<nat>, k: nat)
    requires k <= |methods|
    requires Loop(methods[..k], clicked, throwing).1
    ensures Loop(methods, clicked, throwing) == Loop(methods[..k], clicked, throwing)
    decreases |methods| - k
  {
    if k < |methods| {
      var next := methods[..k + 1];
      assert next[..k] == methods[..k];
      assert Loop(next, clicked, throwing) == Loop(methods[..k], clicked, throwing);
      assert methods[..k + 1][..k + 1] == next;
      LoopStopsAtThrow(methods, clicked, throwing, k + 1);
    } else {
      assert methods[..k] == methods;
    }
  }

  /** The first throwing invocation is the last event: nothing is drawn or invoked after it. */
  lemma ThrowIsLast(methods: seq<MethodDesc>, clicked: set<nat>, throwing: set<nat>, j: nat)
    requires j < |methods| && Throws(methods[j], j, clicked, throwing)
    requires forall i :: 0 <= i < j ==> !Throws(methods[i], i, clicked, throwing)
    ensures Loop(methods, clicked, throwing).1
    ensures var events := Loop(methods, clicked, throwing).0;
      |events| > 0 && events[|events| - 1] == Invoke(methods[j].name)
  {
    var prefix := methods[..j];
    assert forall i :: 0 <= i < |prefix| ==> prefix[i] == methods[i];
    LoopWithoutThrow(prefix, clicked, throwing);
    var next := methods[..j + 1];
    assert next[..|next| - 1] == prefix && next[|next| - 1] == methods[j];
    var events := Loop(prefix, clicked, throwing).0;
    var own := MethodEvents(methods[j], true);
    assert Loop(next, clicked, throwing) == (events + own, true);
    assert own[|own| - 1] == Invoke(methods[j].name);
    LoopStopsAtThrow(methods, clicked, throwing, j + 1);
  }

  /**
   * OnInspectorGUI: target is None for a null target, otherwise the
   * methods of its type; clicked holds the enumeration indices whose
   * button reports a click, throwing those whose invocation throws.
   * thrown reports the exception that leaves the frame.
   */
  method OnInspectorGUI(target: Option<seq<MethodDesc>>, clicked: set<nat>, throwing: set<nat>)
    returns (events: seq<InspectorEvent>, thrown: bool)
    ensures target.None? ==> events == [DefaultInspector] && !thrown
    ensures target.Some? ==>
      var (loopEvents, loopThrown) := Loop(InstanceMethods(target.value), clicked, throwing);
      events == [DefaultInspector] + loopEvents && thrown == loopThrown
  {
    events := [DefaultInspector];
    thrown := false;
    if target.None? {
      return;
    }
    var methods := InstanceMethods(target.value);
    var i := 0;
    assert methods[..0] == [] && events[1..] == [];
    while i < |methods| && !thrown
      invariant 0 <= i <= |methods|
      invariant |events| >= 1 && events[0] == DefaultInspector
      invariant (events[1..], thrown) == Loop(methods[..i], clicked, throwing)
    {
      var candidate := methods[i];
      assert methods[..i + 1][..i] == methods[..i];
      assert candidate in methods;
      ghost var before := events;
      if candidate.declaresButton {
        if candidate.parameterCount == 0 {
          events := events + [Button(candidate.name)];
          if i in clicked {
            events := events + [Invoke(candidate.name)];
            if i in throwing {
              thrown := true;
            }
          }
        }
      }
      assert events[1..] == before[1..] + MethodEvents(candidate, i in clicked);
      i := i + 1;
    }
    if thrown {
      LoopStopsAtThrow(methods, clicked, throwing, i);
    } else {
      assert methods[..i] == methods;
    }
  }
}
