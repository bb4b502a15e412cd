/** The event-update notifier (public/javascripts/events_updates.js): every
    frame pushed by the server shows one flash message at the top of the
    events container and schedules a fade-out and a page reload; a closed
    connection schedules a reload. Timers are recorded as pending entries
    (delay in milliseconds and action); they are not run. */
module EventUpdates {
  import opened Base

  datatype FlashClass = SuccessMessage | ErrorMessage

  /** A child of the `.container.my-events-container` element: a flash
      message (class `success-message` or `error-message`) or any other element. */
  datatype Child = Flash(cls: FlashClass, text: string) | Other(name: string)

  datatype Action = FadeOut | Reload
  datatype Timer = Timer(delay: int, action: Action)

  const DefaultReloadDelay := 5000
  const FadeLead := 1000
  const CloseReloadDelay := 5000
  const UpdateNotice := "Actualizaci\U{00F3}n de evento, se reinicia la pagina en 5 segundos (prototipo)"

  function ClassFor(kind: string): (r: FlashClass)
    ensures r == SuccessMessage <==> kind == "success"
    ensures r == ErrorMessage <==> kind != "success"
  {
    if kind == "success" then SuccessMessage else ErrorMessage
  }

  /** The pair of timers a flash schedules: the fade one second before the reload. */
  function FlashTimers(reloadDelay: int): (r: seq<Timer>)
    ensures |r| == 2 && r[0].action == FadeOut && r[1].action == Reload
    ensures r[1].delay == reloadDelay && r[1].delay - r[0].delay == FadeLead
  {
    [Timer(reloadDelay - FadeLead, FadeOut), Timer(reloadDelay, Reload)]
  }

  /** The children that are not flash messages, in their order. */
  function WithoutFlashes(cs: seq<Child>): seq<Child>
  {
    if cs == [] then []
    else WithoutFlashes(cs[..|cs| - 1]) + (if cs[|cs| - 1].Flash? then [] else [cs[|cs| - 1]])
  }

  function CountFlashes(cs: seq<Child>): nat
  {
    if cs == [] then 0 else CountFlashes(cs[..|cs| - 1]) + (if cs[|cs| - 1].Flash? then 1 else 0)
  }

  /** The container after a flash `f`: old flashes removed, `f` first. */
  function Flashed(cs: seq<Child>, f: Child): seq<Child>
  {
    [f] + WithoutFlashes(cs)
  }

  lemma {:induction false} WithoutFlashesAppend(a: seq<Child>, b: seq<Child>)
    ensures WithoutFlashes(a + b) == WithoutFlashes(a) + WithoutFlashes(b)
    decreases |b|
  {
    if b != [] {
      var front := b[..|b| - 1];
      assert (a + b)[..|a + b| - 1] == a + front;
      WithoutFlashesAppend(a, front);
      assert (a + b)[|a + b| - 1] == b[|b| - 1];
    } else {
      assert a + b == a;
    }
  }

  lemma {:induction false} CountFlashesAppend(a: seq<Child>, b: seq<Child>)
    ensures CountFlashes(a + b) == CountFlashes(a) + CountFlashes(b)
    decreases |b|
  {
    if b != [] {
      var front := b[..|b| - 1];
      assert (a + b)[..|a + b| - 1] == a + front;
      CountFlashesAppend(a, front);
      assert (a + b)[|a + b| - 1] == b[|b| - 1];
    } else {
      assert a + b == a;
    }
  }

  /** Removing the flashes leaves none, and only the other children, in order. */
  lemma {:induction false} WithoutFlashesSpec(cs: seq<Child>)
    ensures CountFlashes(WithoutFlashes(cs)) == 0
    ensures forall k :: 0 <= k < |WithoutFlashes(cs)| ==> WithoutFlashes(cs)[k].Other?
    ensures WithoutFlashes(WithoutFlashes(cs)) == WithoutFlashes(cs)
    ensures CountFlashes(cs) == 0 ==> WithoutFlashes(cs) == cs
  {
    if cs != [] {
      var front := cs[..|cs| - 1];
      var tail := if cs[|cs| - 1].Flash? then [] else [cs[|cs| - 1]];
      WithoutFlashesSpec(front);
      WithoutFlashesAppend(WithoutFlashes(front), tail);
      CountFlashesAppend(WithoutFlashes(front), tail);
      if tail != [] {
        assert tail[..0] == [];
      }
      if CountFlashes(cs) == 0 {
        assert cs == front + [cs[|cs| - 1]];
      }
    }
  }

  /** After a flash the container holds exactly one flash message, it is the
      first child, and the other children are those that were there. */
  lemma FlashedExactlyOne(cs: seq<Child>, f: Child)
    requires f.Flash?
    ensures var r := Flashed(cs, f);
      |r| >= 1 && r[0] == f && CountFlashes(r) == 1 && WithoutFlashes(r) == WithoutFlashes(cs)
  {
    WithoutFlashesSpec(cs);
    CountFlashesAppend([f], WithoutFlashes(cs));
    WithoutFlashesAppend([f], WithoutFlashes(cs));
    assert [f][..0] == [];
  }

  /** A later flash replaces an earlier one: only the most recent stays. */
  lemma FlashedLatestWins(cs: seq<Child>, f1: Child, f2: Child)
    requires f1.Flash? && f2.Flash?
    ensures Flashed(Flashed(cs, f1), f2) == Flashed(cs, f2)
  {
    FlashedExactlyOne(cs, f1);
  }

  /** The container after a burst of flashes, in order. */
  function FlashAll(cs: seq<Child>, fs: seq<Child>): seq<Child>
  {
    if fs == [] then cs else Flashed(FlashAll(cs, fs[..|fs| - 1]), fs[|fs| - 1])
  }

  /** However many flashes arrive, one is visible: the most recent. */
  lemma {:induction false} FlashBurstLeavesLatest(cs: seq<Child>, fs: seq<Child>)
    requires fs != []
    requires forall k :: 0 <= k < |fs| ==> fs[k].Flash?
    ensures FlashAll(cs, fs) == Flashed(cs, fs[|fs| - 1])
  {
    var front := fs[..|fs| - 1];
    if front != [] {
      FlashBurstLeavesLatest(cs, front);
      FlashedLatestWins(cs, front[|front| - 1], fs[|fs| - 1]);
    }
  }

  class EventNotifier {
    /** A WebSocket was created (the browser supports it). */
    var connected: bool
    /** The flash container's children, when the container exists. */
    var container: Option<seq<Child>>
    var pending: seq<Timer>

    /** Page load: without WebSocket support no connection is created. */
    constructor (webSocketSupported: bool, container: Option<seq<Child>>)
      ensures connected == webSocketSupported
      ensures this.container == container && pending == []
    {
      connected := webSocketSupported;
      this.container := container;
      pending := [];
    }

    method ShowFlashMessage(message: string, kind: string := "success", reloadDelay: int := DefaultReloadDelay)
      modifies this`container, this`pending
      ensures old(container).None? ==> container == None && pending == old(pending)
      ensures old(container).Some? ==>
        container == Some(Flashed(old(container).value, Flash(ClassFor(kind), message))) &&
        pending == old(pending) + FlashTimers(reloadDelay)
    {
      var flash := Flash(ClassFor(kind), message);
      if container.Some? {
        var children := container.value;
        var kept := [];
        var i := 0;
        while i < |children|
          invariant 0 <= i <= |children|
          invariant kept == WithoutFlashes(children[..i])
        {
          assert children[..i + 1][..i] == children[..i];
          if !children[i].Flash? {
            kept := kept + [children[i]];
          }
          i := i + 1;
        }
        assert children[..i] == children;
        container := Some([flash] + kept);
        pending := pending + [Timer(reloadDelay - FadeLead, FadeOut)];
        pending := pending + [Timer(reloadDelay, Reload)];
      }
    }

    /** Every frame, whatever its data, shows the same notice. */
    method OnMessage(data: string)
      requires connected
      modifies this`container, this`pending
      ensures old(container).None? ==> container == None && pending == old(pending)
      ensures old(container).Some? ==>
        container == Some(Flashed(old(container).value, Flash(SuccessMessage, UpdateNotice))) &&
        pending == old(pending) + FlashTimers(DefaultReloadDelay)
    {
      ShowFlashMessage(UpdateNotice);
    }

    method OnClose()
      requires connected
      modifies this`pending
      ensures pending == old(pending) + [Timer(CloseReloadDelay, Reload)]
    {
      pending := pending + [Timer(CloseReloadDelay, Reload)];
    }
  }
}
