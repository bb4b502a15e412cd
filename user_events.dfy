/** The voting and live-update controller of the user events page
    (server/public/javascripts/userEventsInterface.js). The page's DOM is an
    abstract record owned by one `UserEventsInterface` object; each handler of
    the script is a method on it. Elements the script finds by an id built
    from an entity id (`confidence-value-<pollId>`, `submit-vote-<pollId>`,
    `current-<eventId>`, ...) are keys of maps and sets; an element that is
    absent is a missing key. */
module UserEvents {
  import opened Base

  /** A `.confidence-slider` range input: its `data-poll-id`, the `data-channel`
      of the block it sits in, its value and its `max`. The slider found by id
      `confidence-<pollId>` is the one carrying that poll id. */
  datatype Slider = Slider(pollId: string, channel: string, value: int, max: int)

  /** A `.balance` element inside a `[data-channel]` block, with its text. */
  datatype BalanceLabel = BalanceLabel(channel: string, text: string)

  datatype Button = Button(text: string, disabled: bool)

  /** The part of the WebSocket's `readyState` that the script looks at, and
      the frames handed to its `send`. */
  datatype ReadyState = Connecting | Open | Closed
  datatype Socket = Socket(url: string, state: ReadyState, sent: seq<string>)

  /** A decoded inbound message, by its `type` field. `Unknown` carries any
      other `type` value. */
  datatype Inbound =
    | EventUpdate(eventId: string)
    | PollUpdate(pollId: string)
    | BalanceUpdate(channelId: string, balance: int)
    | Unknown(tag: string)

  /** An inbound frame: JSON text that decodes to a message, or text that does not. */
  datatype Frame = Json(data: Inbound) | NotJson(text: string)

  const SelectOptionError := "Please select an option"
  const ConfidenceError := "Please set a valid confidence level"
  const SubmitVoteText := "Submit Vote"
  const SubmittingText := "Submitting..."
  const ConnectedText := "\U{1F7E2} Live Updates Connected"
  const DisconnectedText := "\U{1F534} Live Updates Disconnected"
  const RefreshRequest := "{\"type\":\"requestRefresh\"}"

  /* ---------- Balance labels ---------- */

  function BalanceText(b: int): string {
    "Balance: " + IntToString(b) + " points"
  }

  /** The label text names the balance it was written for, and nothing else. */
  lemma BalanceTextShowsBalance(b: int)
    ensures var t := BalanceText(b);
      |t| > 16 && t[..9] == "Balance: " && t[|t| - 7..] == " points" &&
      ParseDecimal(t[9..|t| - 7]) == b
  {
    var t := BalanceText(b);
    assert t[9..|t| - 7] == IntToString(b);
    IntToStringRoundTrip(b);
  }

  function RelabelOne(l: BalanceLabel, c: string, b: int): BalanceLabel {
    if l.channel == c then l.(text := BalanceText(b)) else l
  }

  /** Every balance label of channel `c`, rewritten for balance `b`. */
  function Relabel(ls: seq<BalanceLabel>, c: string, b: int): seq<BalanceLabel>
  {
    if ls == [] then [] else Relabel(ls[..|ls| - 1], c, b) + [RelabelOne(ls[|ls| - 1], c, b)]
  }

  lemma {:induction false} RelabelAt(ls: seq<BalanceLabel>, c: string, b: int)
    ensures |Relabel(ls, c, b)| == |ls|
    ensures forall k :: 0 <= k < |ls| ==> Relabel(ls, c, b)[k] == RelabelOne(ls[k], c, b)
  {
    if ls != [] {
      RelabelAt(ls[..|ls| - 1], c, b);
    }
  }

  /** Labels of channel `c` read exactly "Balance: b points"; the others keep their text. */
  lemma {:induction false} RelabelSpec(ls: seq<BalanceLabel>, c: string, b: int)
    ensures |Relabel(ls, c, b)| == |ls|
    ensures forall k :: 0 <= k < |ls| ==> Relabel(ls, c, b)[k].channel == ls[k].channel
    ensures forall k :: 0 <= k < |ls| && ls[k].channel == c ==> Relabel(ls, c, b)[k].text == BalanceText(b)
    ensures forall k :: 0 <= k < |ls| && ls[k].channel != c ==> Relabel(ls, c, b)[k] == ls[k]
  {
    RelabelAt(ls, c, b);
  }

  /* ---------- Sliders ---------- */

  predicate SlidersWithinMax(ss: seq<Slider>) {
    forall k :: 0 <= k < |ss| ==> ss[k].value <= ss[k].max
  }

  function ClampSlider(s: Slider, c: string, b: int): Slider {
    if s.channel == c then s.(max := b, value := if s.value > b then b else s.value) else s
  }

  /** Every slider of channel `c`, bounded by balance `b`. */
  function ClampSliders(ss: seq<Slider>, c: string, b: int): seq<Slider>
  {
    if ss == [] then [] else ClampSliders(ss[..|ss| - 1], c, b) + [ClampSlider(ss[|ss| - 1], c, b)]
  }

  lemma {:induction false} ClampSlidersAt(ss: seq<Slider>, c: string, b: int)
    ensures |ClampSliders(ss, c, b)| == |ss|
    ensures forall k :: 0 <= k < |ss| ==> ClampSliders(ss, c, b)[k] == ClampSlider(ss[k], c, b)
  {
    if ss != [] {
      ClampSlidersAt(ss[..|ss| - 1], c, b);
    }
  }

  /** After clamping, each slider of `c` has `max == b` and `value == min(old value, b)`,
      every other slider is unchanged, and no slider of `c` exceeds the balance. */
  lemma {:induction false} ClampSlidersSpec(ss: seq<Slider>, c: string, b: int)
    ensures |ClampSliders(ss, c, b)| == |ss|
    ensures forall k :: 0 <= k < |ss| && ss[k].channel == c ==>
      ClampSliders(ss, c, b)[k] ==
        ss[k].(max := b, value := if ss[k].value <= b then ss[k].value else b)
    ensures forall k :: 0 <= k < |ss| && ss[k].channel != c ==> ClampSliders(ss, c, b)[k] == ss[k]
    ensures forall k :: 0 <= k < |ss| && ss[k].channel == c ==> ClampSliders(ss, c, b)[k].value <= b
  {
    ClampSlidersAt(ss, c, b);
  }

  /** Clamping keeps every slider's value within its maximum. */
  lemma {:induction false} ClampKeepsWithinMax(ss: seq<Slider>, c: string, b: int)
    requires SlidersWithinMax(ss)
    ensures SlidersWithinMax(ClampSliders(ss, c, b))
  {
    ClampSlidersAt(ss, c, b);
  }

  /** Whether clamping `ss` for channel `c` lowers the value of some slider of poll `p`. */
  ghost predicate ClampsPoll(ss: seq<Slider>, c: string, b: int, p: string) {
    exists k :: 0 <= k < |ss| && Lowers(ss[k], c, b, p)
  }

  predicate Lowers(s: Slider, c: string, b: int, p: string) {
    s.channel == c && s.value > b && s.pollId == p
  }

  lemma ClampsPollSnoc(ss: seq<Slider>, c: string, b: int, p: string)
    requires ss != []
    ensures ClampsPoll(ss, c, b, p) <==>
      ClampsPoll(ss[..|ss| - 1], c, b, p) || Lowers(ss[|ss| - 1], c, b, p)
  {
    var front := ss[..|ss| - 1];
    if ClampsPoll(ss, c, b, p) && !Lowers(ss[|ss| - 1], c, b, p) {
      var k :| 0 <= k < |ss| && Lowers(ss[k], c, b, p);
      assert front[k] == ss[k];
    }
    if ClampsPoll(front, c, b, p) {
      var k :| 0 <= k < |front| && Lowers(front[k], c, b, p);
      assert ss[k] == front[k];
    }
  }

  /** The confidence displays after the clamped sliders have announced their new value. */
  function ClampDisplays(d: map<string, string>, ss: seq<Slider>, c: string, b: int): map<string, string>
  {
    if ss == [] then d
    else
      var d' := ClampDisplays(d, ss[..|ss| - 1], c, b);
      var s := ss[|ss| - 1];
      if s.channel == c && s.value > b && s.pollId in d' then d'[s.pollId := IntToString(b)] else d'
  }

  lemma {:induction false} ClampDisplaysKeys(d: map<string, string>, ss: seq<Slider>, c: string, b: int)
    ensures ClampDisplays(d, ss, c, b).Keys == d.Keys
  {
    if ss != [] {
      ClampDisplaysKeys(d, ss[..|ss| - 1], c, b);
    }
  }

  lemma {:induction false} ClampDisplaysAt(d: map<string, string>, ss: seq<Slider>, c: string, b: int, p: string)
    requires p in d
    ensures p in ClampDisplays(d, ss, c, b)
    ensures ClampDisplays(d, ss, c, b)[p] == if ClampsPoll(ss, c, b, p) then IntToString(b) else d[p]
  {
    if ss != [] {
      ClampDisplaysAt(d, ss[..|ss| - 1], c, b, p);
      ClampsPollSnoc(ss, c, b, p);
    }
  }

  /** A poll whose slider was clamped shows `b`; every other display keeps its
      text, and no display is created. */
  lemma {:induction false} ClampDisplaysSpec(d: map<string, string>, ss: seq<Slider>, c: string, b: int)
    ensures ClampDisplays(d, ss, c, b).Keys == d.Keys
    ensures forall p :: p in d ==>
      ClampDisplays(d, ss, c, b)[p] == if ClampsPoll(ss, c, b, p) then IntToString(b) else d[p]
  {
    ClampDisplaysKeys(d, ss, c, b);
    forall p | p in d
      ensures ClampDisplays(d, ss, c, b)[p] == if ClampsPoll(ss, c, b, p) then IntToString(b) else d[p]
    {
      ClampDisplaysAt(d, ss, c, b, p);
    }
  }

  /** Applying the same balance update twice leaves the page as applying it once. */
  lemma {:induction false} ClampSlidersIdempotent(ss: seq<Slider>, c: string, b: int)
    ensures ClampSliders(ClampSliders(ss, c, b), c, b) == ClampSliders(ss, c, b)
  {
    var once := ClampSliders(ss, c, b);
    ClampSlidersAt(ss, c, b);
    ClampSlidersAt(once, c, b);
  }

  lemma {:induction false} RelabelIdempotent(ls: seq<BalanceLabel>, c: string, b: int)
    ensures Relabel(Relabel(ls, c, b), c, b) == Relabel(ls, c, b)
  {
    RelabelAt(ls, c, b);
    RelabelAt(Relabel(ls, c, b), c, b);
  }

  lemma {:induction false} ClampDisplaysIdempotent(d: map<string, string>, ss: seq<Slider>, c: string, b: int)
    ensures ClampDisplays(ClampDisplays(d, ss, c, b), ClampSliders(ss, c, b), c, b) == ClampDisplays(d, ss, c, b)
  {
    var once := ClampSliders(ss, c, b);
    var d1 := ClampDisplays(d, ss, c, b);
    ClampSlidersSpec(ss, c, b);
    ClampDisplaysKeys(d1, once, c, b);
    forall p | p in d1 ensures ClampDisplays(d1, once, c, b)[p] == d1[p] {
      ClampDisplaysAt(d1, once, c, b, p);
    }
  }

  /** A clamped slider's display shows the slider's new value, so display and
      slider agree after a balance update. */
  lemma ClampedDisplayMatchesSlider(d: map<string, string>, ss: seq<Slider>, c: string, b: int, k: nat)
    requires k < |ss| && ss[k].channel == c && ss[k].value > b && ss[k].pollId in d
    ensures ss[k].pollId in ClampDisplays(d, ss, c, b) && |ClampSliders(ss, c, b)| == |ss|
    ensures ClampDisplays(d, ss, c, b)[ss[k].pollId] == IntToString(ClampSliders(ss, c, b)[k].value)
  {
    assert Lowers(ss[k], c, b, ss[k].pollId);
    ClampDisplaysAt(d, ss, c, b, ss[k].pollId);
    ClampSlidersAt(ss, c, b);
  }

  /** The display pass as a browser runs it. Assigning `max` to a range input
      already lowers its value to the new maximum (the range overflow rule of
      the HTML standard), so the value test after it reads the lowered value. */
  function SanitisedClampDisplays(d: map<string, string>, ss: seq<Slider>, c: string, b: int): map<string, string>
  {
    if ss == [] then d
    else
      var d' := SanitisedClampDisplays(d, ss[..|ss| - 1], c, b);
      var s := ClampSlider(ss[|ss| - 1], c, b);
      if s.channel == c && s.value > b && s.pollId in d' then d'[s.pollId := IntToString(b)] else d'
  }

  /** In a browser the value test never succeeds, so no display is updated. */
  lemma {:induction false} SanitisedDisplaysStale(d: map<string, string>, ss: seq<Slider>, c: string, b: int)
    ensures SanitisedClampDisplays(d, ss, c, b) == d
  {
    if ss != [] {
      SanitisedDisplaysStale(d, ss[..|ss| - 1], c, b);
    }
  }

  /** A slider at 60 and a balance update to 40: the slider reads 40, its
      display keeps "60"; the intended pass shows "40". */
  lemma StaleDisplayExample()
    ensures var ss, d := [Slider("p", "c", 60, 100)], map["p" := "60"];
      ClampSliders(ss, "c", 40)[0].value == 40 &&
      SanitisedClampDisplays(d, ss, "c", 40)["p"] == "60" &&
      ClampDisplays(d, ss, "c", 40)["p"] == "40"
  {
    var ss, d := [Slider("p", "c", 60, 100)], map["p" := "60"];
    SanitisedDisplaysStale(d, ss, "c", 40);
    ClampedDisplayMatchesSlider(d, ss, "c", 40, 0);
    assert IntToString(40) == "40";
  }

  /** The first slider, in document order, carrying poll id `p` (`getElementById`). */
  function FindSlider(ss: seq<Slider>, p: string): (r: Option<nat>)
    ensures r.None? <==> NoSliderFor(ss, p)
    ensures r.Some? ==> r.value < |ss| && ss[r.value].pollId == p
    ensures r.Some? ==> forall j :: 0 <= j < r.value ==> ss[j].pollId != p
  {
    if ss == [] then None
    else if ss[0].pollId == p then Some(0)
    else match FindSlider(ss[1..], p)
      case None => None
      case Some(k) => Some(k + 1)
  }

  predicate NoSliderFor(ss: seq<Slider>, p: string) {
    forall k :: 0 <= k < |ss| ==> ss[k].pollId != p
  }

  /** No later slider in document order carries the poll id of slider `k`. */
  predicate LastOfPoll(ss: seq<Slider>, k: int)
    requires 0 <= k < |ss|
  {
    forall j :: k < j < |ss| ==> ss[j].pollId != ss[k].pollId
  }

  /** The display texts after page load: each slider inside a vote form shows its value. */
  function InitialDisplays(d: map<string, string>, ss: seq<Slider>, forms: set<string>): map<string, string>
  {
    if ss == [] then d
    else
      var d' := InitialDisplays(d, ss[..|ss| - 1], forms);
      var s := ss[|ss| - 1];
      if s.pollId in forms && s.pollId in d' then d'[s.pollId := IntToString(s.value)] else d'
  }

  lemma {:induction false} InitialDisplaysKeys(d: map<string, string>, ss: seq<Slider>, forms: set<string>)
    ensures InitialDisplays(d, ss, forms).Keys == d.Keys
  {
    if ss != [] {
      InitialDisplaysKeys(d, ss[..|ss| - 1], forms);
    }
  }

  /** A poll with no form, or with no slider, keeps its display text. */
  lemma {:induction false} InitialDisplaysUntouched(d: map<string, string>, ss: seq<Slider>, forms: set<string>, p: string)
    requires p in d && (p !in forms || NoSliderFor(ss, p))
    ensures p in InitialDisplays(d, ss, forms) && InitialDisplays(d, ss, forms)[p] == d[p]
  {
    if ss != [] {
      var front := ss[..|ss| - 1];
      assert forall k :: 0 <= k < |front| ==> front[k] == ss[k];
      InitialDisplaysUntouched(d, front, forms, p);
    }
  }

  /** The display of a poll with a form shows the value of its last slider. */
  lemma {:induction false} InitialDisplaysLast(d: map<string, string>, ss: seq<Slider>, forms: set<string>, k: nat)
    requires k < |ss| && ss[k].pollId in forms && ss[k].pollId in d && LastOfPoll(ss, k)
    ensures ss[k].pollId in InitialDisplays(d, ss, forms)
    ensures InitialDisplays(d, ss, forms)[ss[k].pollId] == IntToString(ss[k].value)
  {
    var front := ss[..|ss| - 1];
    var p := ss[k].pollId;
    InitialDisplaysKeys(d, front, forms);
    if k < |ss| - 1 {
      assert front[k] == ss[k];
      assert LastOfPoll(front, k) by {
        forall j | k < j < |front| ensures front[j].pollId != p {
          assert front[j] == ss[j];
        }
      }
      InitialDisplaysLast(d, front, forms, k);
      assert ss[|ss| - 1].pollId != p;
    }
  }

  lemma InitialDisplaysAt(d: map<string, string>, ss: seq<Slider>, forms: set<string>, p: string)
    requires p in d
    ensures p in InitialDisplays(d, ss, forms)
    ensures p !in forms || NoSliderFor(ss, p) ==> InitialDisplays(d, ss, forms)[p] == d[p]
    ensures forall k :: 0 <= k < |ss| && ss[k].pollId == p && p in forms && LastOfPoll(ss, k) ==>
      InitialDisplays(d, ss, forms)[p] == IntToString(ss[k].value)
  {
    InitialDisplaysKeys(d, ss, forms);
    if p !in forms || NoSliderFor(ss, p) {
      InitialDisplaysUntouched(d, ss, forms, p);
    }
    forall k | 0 <= k < |ss| && ss[k].pollId == p && p in forms && LastOfPoll(ss, k)
      ensures InitialDisplays(d, ss, forms)[p] == IntToString(ss[k].value)
    {
      InitialDisplaysLast(d, ss, forms, k);
    }
  }

  /** Displays of polls without a form or without a slider keep their text; a
      poll's display shows the value of its last slider in document order. */
  lemma {:induction false} InitialDisplaysSpec(d: map<string, string>, ss: seq<Slider>, forms: set<string>)
    ensures InitialDisplays(d, ss, forms).Keys == d.Keys
    ensures forall p :: p in d && (p !in forms || NoSliderFor(ss, p)) ==> InitialDisplays(d, ss, forms)[p] == d[p]
    ensures forall k :: 0 <= k < |ss| && ss[k].pollId in forms && ss[k].pollId in d && LastOfPoll(ss, k) ==>
      InitialDisplays(d, ss, forms)[ss[k].pollId] == IntToString(ss[k].value)
  {
    InitialDisplaysKeys(d, ss, forms);
    forall p | p in d
      ensures p !in forms || NoSliderFor(ss, p) ==> InitialDisplays(d, ss, forms)[p] == d[p]
    {
      InitialDisplaysAt(d, ss, forms, p);
    }
    forall k | 0 <= k < |ss| && ss[k].pollId in forms && ss[k].pollId in d && LastOfPoll(ss, k)
      ensures InitialDisplays(d, ss, forms)[ss[k].pollId] == IntToString(ss[k].value)
    {
      InitialDisplaysAt(d, ss, forms, ss[k].pollId);
    }
  }

  /* ---------- Vote form gating ---------- */

  /** The state of the submit button for a poll's current selection and slider. */
  function SubmitButtonFor(option: Option<string>, slider: Option<Slider>): (r: Button)
    ensures !r.disabled <==> option.Some? && slider.Some?
    ensures !r.disabled ==> r.text == IntToString(slider.value.value) + " points for " + option.value
    ensures r.disabled ==> r.text == SubmitVoteText
  {
    if option.Some? && slider.Some? then
      Button(IntToString(slider.value.value) + " points for " + option.value, false)
    else
      Button(SubmitVoteText, true)
  }

  /** Why a vote form may not be submitted, or None when it may. The selection
      is checked before the confidence; there is no check against the balance. */
  function VoteError(option: Option<string>, slider: Option<Slider>): (r: Option<string>)
    ensures r.None? <==> option.Some? && slider.Some? && slider.value.value >= 1
    ensures option.None? ==> r == Some(SelectOptionError)
    ensures option.Some? && (slider.None? || slider.value.value < 1) ==> r == Some(ConfidenceError)
  {
    if option.None? then Some(SelectOptionError)
    else if slider.None? || slider.value.value < 1 then Some(ConfidenceError)
    else None
  }

  /** The gate and the validation agree: a form is accepted exactly when its
      button is enabled and the slider is at least 1; an enabled button never
      meets the "select an option" error. */
  lemma GateAgreesWithValidation(option: Option<string>, slider: Option<Slider>)
    ensures VoteError(option, slider).None? <==>
      !SubmitButtonFor(option, slider).disabled && slider.value.value >= 1
    ensures !SubmitButtonFor(option, slider).disabled ==> VoteError(option, slider) != Some(SelectOptionError)
  {
  }

  /* ---------- Connection status ---------- */

  function StatusText(connected: bool): string {
    if connected then ConnectedText else DisconnectedText
  }

  /** The status indicator after a sequence of open (true) and close/error
      (false) signals: created on the first signal when the anchor exists,
      then overwritten. */
  function StatusAfter(indicator: Option<string>, anchorPresent: bool, signals: seq<bool>): Option<string>
  {
    if signals == [] then indicator
    else
      var before := StatusAfter(indicator, anchorPresent, signals[..|signals| - 1]);
      if before.None? && !anchorPresent then None else Some(StatusText(signals[|signals| - 1]))
  }

  /** The indicator shows the latest signal, or does not exist when there is
      no anchor to attach it to. */
  lemma {:induction false} StatusReflectsLatest(indicator: Option<string>, anchorPresent: bool, signals: seq<bool>)
    requires signals != []
    ensures indicator.None? && !anchorPresent ==> StatusAfter(indicator, anchorPresent, signals) == None
    ensures indicator.Some? || anchorPresent ==>
      StatusAfter(indicator, anchorPresent, signals) == Some(StatusText(signals[|signals| - 1]))
  {
    var front := signals[..|signals| - 1];
    if front != [] {
      StatusReflectsLatest(indicator, anchorPresent, front);
    }
  }

  /* ---------- The controller ---------- */

  class UserEventsInterface {
    var sliders: seq<Slider>
    /** Poll ids that have a `vote-form-<pollId>`. */
    var forms: set<string>
    /** Poll id to the `data-option-text` of the checked radio in its form. */
    var selected: map<string, string>
    /** `confidence-value-<pollId>` texts. */
    var displays: map<string, string>
    /** `submit-vote-<pollId>` buttons. */
    var buttons: map<string, Button>
    var labels: seq<BalanceLabel>
    /** Event ids that have a `current-<eventId>` element. */
    var currentEvents: set<string>
    /** Whether the `my_event_active` heading exists. */
    var anchorPresent: bool
    /** The `connection-status` element's text, once it exists. */
    var statusIndicator: Option<string>
    /** The `error-display` element's text, once it exists. */
    var errorDisplay: Option<string>
    var websocket: Option<Socket>
    /** A `location.reload()` has been requested. */
    var reloadRequested: bool

    ghost predicate Valid()
      reads this
    {
      SlidersWithinMax(sliders) && (statusIndicator.Some? ==> anchorPresent)
    }

    function SelectedOption(pollId: string): Option<string>
      reads this
    {
      Get(selected, pollId)
    }

    /** `getElementById('confidence-<pollId>')`: the first slider in document
        order carrying the poll id, or None when no slider carries it. */
    function SliderById(pollId: string): (r: Option<Slider>)
      reads this
      ensures r.None? <==> NoSliderFor(sliders, pollId)
      ensures r.Some? ==> r.value == sliders[FindSlider(sliders, pollId).value]
      ensures r.Some? ==> r.value in sliders && r.value.pollId == pollId
    {
      match FindSlider(sliders, pollId)
      case None => None
      case Some(k) => Some(sliders[k])
    }

    /** The page as loaded; range inputs never hold a value above their max. */
    constructor (sliders: seq<Slider>, forms: set<string>, selected: map<string, string>,
                 displays: map<string, string>, buttons: map<string, Button>,
                 labels: seq<BalanceLabel>, currentEvents: set<string>, anchorPresent: bool)
      requires SlidersWithinMax(sliders)
      ensures Valid()
      ensures this.sliders == sliders && this.forms == forms && this.selected == selected
      ensures this.displays == displays && this.buttons == buttons && this.labels == labels
      ensures this.currentEvents == currentEvents && this.anchorPresent == anchorPresent
      ensures statusIndicator == None && errorDisplay == None && websocket == None && !reloadRequested
    {
      this.sliders := sliders;
      this.forms := forms;
      this.selected := selected;
      this.displays := displays;
      this.buttons := buttons;
      this.labels := labels;
      this.currentEvents := currentEvents;
      this.anchorPresent := anchorPresent;
      statusIndicator := None;
      errorDisplay := None;
      websocket := None;
      reloadRequested := false;
    }

    /** Initial display of every slider that sits in a vote form. */
    method InitializeVotingInterface()
      modifies this`displays
      ensures displays == InitialDisplays(old(displays), sliders, forms)
    {
      var i := 0;
      while i < |sliders|
        invariant 0 <= i <= |sliders|
        invariant displays == InitialDisplays(old(displays), sliders[..i], forms)
      {
        assert sliders[..i + 1][..i] == sliders[..i];
        var slider := sliders[i];
        if slider.pollId in forms {
          UpdateConfidenceDisplay(slider.pollId, IntToString(slider.value));
        }
        i := i + 1;
      }
      assert sliders[..i] == sliders;
    }

    method UpdateConfidenceDisplay(pollId: string, text: string)
      modifies this`displays
      ensures displays == if pollId in old(displays) then old(displays)[pollId := text] else old(displays)
    {
      if pollId in displays {
        displays := displays[pollId := text];
      }
    }

    method UpdateSubmitButton(pollId: string)
      modifies this`buttons
      ensures buttons == if pollId in old(buttons)
        then old(buttons)[pollId := SubmitButtonFor(SelectedOption(pollId), SliderById(pollId))]
        else old(buttons)
    {
      var option := SelectedOption(pollId);
      var slider := SliderById(pollId);
      if option.Some? && pollId in buttons && slider.Some? {
        buttons := buttons[pollId := Button(IntToString(slider.value.value) + " points for " + option.value, false)];
      } else if pollId in buttons {
        buttons := buttons[pollId := Button(SubmitVoteText, true)];
      }
    }

    /** The `input` listener of slider `i`; the browser keeps the value within the max. */
    method OnSliderInput(i: nat, v: int)
      requires Valid()
      requires i < |sliders| && sliders[i].pollId in forms && v <= sliders[i].max
      modifies this`sliders, this`displays, this`buttons
      ensures Valid()
      ensures sliders == old(sliders)[i := old(sliders)[i].(value := v)]
      ensures var p := old(sliders)[i].pollId;
        displays == (if p in old(displays) then old(displays)[p := IntToString(v)] else old(displays)) &&
        buttons == (if p in old(buttons)
          then old(buttons)[p := SubmitButtonFor(SelectedOption(p), SliderById(p))] else old(buttons))
    {
      sliders := sliders[i := sliders[i].(value := v)];
      UpdateConfidenceDisplay(sliders[i].pollId, IntToString(v));
      UpdateSubmitButton(sliders[i].pollId);
    }

    /** The `change` listener of an option radio in the form of `pollId`. The
        listener is installed inside the pass over the sliders, so it exists
        only for a poll that has both a form and a slider. */
    method OnOptionChange(pollId: string, optionText: string)
      requires pollId in forms && !NoSliderFor(sliders, pollId)
      modifies this`selected, this`buttons
      ensures selected == old(selected)[pollId := optionText]
      ensures buttons == if pollId in old(buttons)
        then old(buttons)[pollId := SubmitButtonFor(Some(optionText), SliderById(pollId))]
        else old(buttons)
    {
      selected := selected[pollId := optionText];
      UpdateSubmitButton(pollId);
    }

    /** The form's `submit` listener; `accepted == false` means `preventDefault`.
        Like the other listeners of a vote form, it is installed only for a
        poll that has both a form and a slider. */
    method ValidateVoteForm(pollId: string) returns (accepted: bool)
      requires pollId in forms && !NoSliderFor(sliders, pollId)
      modifies this`errorDisplay, this`buttons
      ensures var err := VoteError(SelectedOption(pollId), SliderById(pollId));
        (accepted <==> err.None?) &&
        errorDisplay == (if accepted then old(errorDisplay) else err)
      ensures buttons == if accepted && pollId in old(buttons)
        then old(buttons)[pollId := Button(SubmittingText, true)]
        else old(buttons)
    {
      var option := SelectedOption(pollId);
      var slider := SliderById(pollId);
      if option.None? {
        ShowError(SelectOptionError);
        return false;
      }
      if slider.None? || slider.value.value < 1 {
        ShowError(ConfidenceError);
        return false;
      }
      if pollId in buttons {
        buttons := buttons[pollId := Button(SubmittingText, true)];
      }
      return true;
    }

    /** One error element, created on first use and overwritten afterwards. */
    method ShowError(message: string)
      modifies this`errorDisplay
      ensures errorDisplay == Some(message)
    {
      errorDisplay := Some(message);
    }

    /** Connects only when the page names a non-empty URL. */
    method InitializeEventUpdates(wsUrl: Option<string>, constructorThrows: bool)
      modifies this`websocket
      ensures websocket == if wsUrl.Some? && wsUrl.value != "" && !constructorThrows
        then Some(Socket(wsUrl.value, Connecting, [])) else old(websocket)
    {
      if wsUrl.Some? && wsUrl.value != "" {
        ConnectWebSocket(wsUrl.value, constructorThrows);
      }
    }

    /** `constructorThrows` stands for `new WebSocket(url)` throwing; the error
        is caught and the field is left as it was. */
    method ConnectWebSocket(url: string, constructorThrows: bool)
      modifies this`websocket
      ensures websocket == if constructorThrows then old(websocket) else Some(Socket(url, Connecting, []))
    {
      if !constructorThrows {
        websocket := Some(Socket(url, Connecting, []));
      }
    }

    method OnOpen()
      requires Valid() && websocket.Some?
      modifies this`websocket, this`statusIndicator
      ensures Valid()
      ensures websocket == Some(old(websocket).value.(state := Open))
      ensures statusIndicator == StatusAfter(old(statusIndicator), anchorPresent, [true])
    {
      websocket := Some(websocket.value.(state := Open));
      ShowConnectionStatus(true);
    }

    method OnClose()
      requires Valid() && websocket.Some?
      modifies this`websocket, this`statusIndicator
      ensures Valid()
      ensures websocket == Some(old(websocket).value.(state := Closed))
      ensures statusIndicator == StatusAfter(old(statusIndicator), anchorPresent, [false])
    {
      websocket := Some(websocket.value.(state := Closed));
      ShowConnectionStatus(false);
    }

    /** A failed connection is closed by the time its `error` event fires. */
    method OnError()
      requires Valid() && websocket.Some?
      modifies this`websocket, this`statusIndicator
      ensures Valid()
      ensures websocket == Some(old(websocket).value.(state := Closed))
      ensures statusIndicator == StatusAfter(old(statusIndicator), anchorPresent, [false])
    {
      websocket := Some(websocket.value.(state := Closed));
      ShowConnectionStatus(false);
    }

    /** `JSON.parse` is not guarded: a frame that is not JSON throws before any
        state changes. */
    method OnMessage(frame: Frame)
      requires Valid() && websocket.Some?
      modifies this`labels, this`sliders, this`displays, this`reloadRequested
      ensures Valid()
      ensures frame.NotJson? ==>
        labels == old(labels) && sliders == old(sliders) && displays == old(displays) &&
        reloadRequested == old(reloadRequested)
      ensures frame.Json? ==> Dispatched(frame.data, old(labels), old(sliders), old(displays), old(reloadRequested))
    {
      match frame
      case Json(data) => HandleWebSocketMessage(data);
      case NotJson(_) =>
    }

    /** What handling message `m` leaves on the page, given the state before it. */
    ghost predicate Dispatched(m: Inbound, labels0: seq<BalanceLabel>, sliders0: seq<Slider>,
                               displays0: map<string, string>, reload0: bool)
      reads this
    {
      match m
      case BalanceUpdate(c, b) =>
        labels == Relabel(labels0, c, b) && sliders == ClampSliders(sliders0, c, b) &&
        displays == ClampDisplays(displays0, sliders0, c, b) && reloadRequested == reload0
      case EventUpdate(e) =>
        labels == labels0 && sliders == sliders0 && displays == displays0 &&
        reloadRequested == (reload0 || e in currentEvents)
      case _ =>
        labels == labels0 && sliders == sliders0 && displays == displays0 && reloadRequested == reload0
    }

    /** Exactly one handler per message type; a poll update and an unknown type
        change nothing. */
    method HandleWebSocketMessage(data: Inbound)
      requires Valid()
      modifies this`labels, this`sliders, this`displays, this`reloadRequested
      ensures Valid()
      ensures Dispatched(data, old(labels), old(sliders), old(displays), old(reloadRequested))
    {
      match data
      case EventUpdate(eventId) => UpdateEventDisplay(eventId);
      case PollUpdate(_) =>
      case BalanceUpdate(channelId, balance) => UpdateBalanceDisplay(channelId, balance);
      case Unknown(_) =>
    }

    method UpdateEventDisplay(eventId: string)
      modifies this`reloadRequested
      ensures reloadRequested == (old(reloadRequested) || eventId in currentEvents)
    {
      if eventId in currentEvents {
        reloadRequested := true;
      }
    }

    method UpdateBalanceDisplay(channelId: string, newBalance: int)
      requires Valid()
      modifies this`labels, this`sliders, this`displays
      ensures Valid()
      ensures labels == Relabel(old(labels), channelId, newBalance)
      ensures sliders == ClampSliders(old(sliders), channelId, newBalance)
      ensures displays == ClampDisplays(old(displays), old(sliders), channelId, newBalance)
    {
      RelabelChannel(channelId, newBalance);
      ClampChannelSliders(channelId, newBalance);
    }

    /** The `[data-channel="c"] .balance` pass of the balance update. */
    method RelabelChannel(channelId: string, newBalance: int)
      modifies this`labels
      ensures labels == Relabel(old(labels), channelId, newBalance)
    {
      ghost var labels0 := labels;
      var i := 0;
      while i < |labels|
        invariant 0 <= i <= |labels| == |labels0|
        invariant forall k :: 0 <= k < i ==> labels[k] == RelabelOne(labels0[k], channelId, newBalance)
        invariant forall k :: i <= k < |labels| ==> labels[k] == labels0[k]
      {
        if labels[i].channel == channelId {
          labels := labels[i := labels[i].(text := BalanceText(newBalance))];
        }
        i := i + 1;
      }
      RelabelAt(labels0, channelId, newBalance);
    }

    /** The `[data-channel="c"] .confidence-slider` pass of the balance update. */
    method ClampChannelSliders(channelId: string, newBalance: int)
      requires SlidersWithinMax(sliders)
      modifies this`sliders, this`displays
      ensures SlidersWithinMax(sliders)
      ensures sliders == ClampSliders(old(sliders), channelId, newBalance)
      ensures displays == ClampDisplays(old(displays), old(sliders), channelId, newBalance)
    {
      ghost var sliders0 := sliders;
      var i := 0;
      while i < |sliders|
        invariant 0 <= i <= |sliders| == |sliders0|
        invariant forall k :: 0 <= k < i ==> sliders[k] == ClampSlider(sliders0[k], channelId, newBalance)
        invariant forall k :: i <= k < |sliders| ==> sliders[k] == sliders0[k]
        invariant displays == ClampDisplays(old(displays), sliders0[..i], channelId, newBalance)
      {
        assert sliders0[..i + 1][..i] == sliders0[..i];
        if sliders[i].channel == channelId {
          sliders := sliders[i := sliders[i].(max := newBalance)];
          if sliders[i].value > newBalance {
            sliders := sliders[i := sliders[i].(value := newBalance)];
            UpdateConfidenceDisplay(sliders[i].pollId, IntToString(newBalance));
          }
        }
        i := i + 1;
      }
      assert sliders0[..i] == sliders0;
      ClampSlidersAt(sliders0, channelId, newBalance);
      ClampKeepsWithinMax(sliders0, channelId, newBalance);
    }

    /** A single indicator, created inside the anchor on first use and then overwritten. */
    method ShowConnectionStatus(connected: bool)
      requires Valid()
      modifies this`statusIndicator
      ensures Valid()
      ensures statusIndicator == StatusAfter(old(statusIndicator), anchorPresent, [connected])
    {
      if statusIndicator.None? {
        if !anchorPresent {
          return;
        }
      }
      if connected {
        statusIndicator := Some(ConnectedText);
      } else {
        statusIndicator := Some(DisconnectedText);
      }
    }

    /** Asks the server for a refresh over an open socket, else reloads the page. */
    method RefreshEvents()
      modifies this`websocket, this`reloadRequested
      ensures old(websocket).Some? && old(websocket).value.state == Open ==>
        websocket == Some(old(websocket).value.(sent := old(websocket).value.sent + [RefreshRequest])) &&
        reloadRequested == old(reloadRequested)
      ensures !(old(websocket).Some? && old(websocket).value.state == Open) ==>
        websocket == old(websocket) && reloadRequested
    {
      if websocket.Some? && websocket.value.state == Open {
        websocket := Some(websocket.value.(sent := websocket.value.sent + [RefreshRequest]));
      } else {
        reloadRequested := true;
      }
    }
  }
}
