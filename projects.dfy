/**
 * Project-card filtering on the projects page. Each filter button carries a
 * `data-filter` attribute and an active class; each card carries a
 * `data-category` attribute and the two style properties the filter sets.
 * The timers the page starts are returned as `Timer` values: the effect a
 * card's timer has when it fires and the delay before it does.
 */
module Projects {
  import opened Wrappers

  /** The filter value that shows every card. */
  const All := "all"
  /** Milliseconds between the fade-ins of consecutive cards in `filterProjects`. */
  const FilterStagger := 100
  /** Milliseconds between the fade-ins of consecutive cards in the page's own click handler. */
  const PageStagger := 50
  /** Milliseconds after which a hidden card is taken out of the layout. */
  const HideDelay := 300

  /** A filter button: its `data-filter` attribute (absent is `None`) and whether it has `filter-btn-active`. */
  datatype Button = Button(filter: Option<string>, active: bool)

  /** A project card: its `data-category` attribute and its `display` and `opacity` styles. */
  datatype Card = Card(category: Option<string>, display: string, opacity: string)

  /** What a card's timer does when it fires: fade the card in, or take it out of the layout. */
  datatype Effect = FadeIn | Collapse

  /** The timer started for one card. */
  datatype Timer = Timer(delay: int, effect: Effect)

  /** The show rule: the filter is "all" or equals the card's category (an absent attribute equals only an absent one). */
  predicate ShouldShow(filter: Option<string>, category: Option<string>) {
    filter == Some(All) || category == filter
  }

  /** The timer started for the card at `index`: a staggered fade-in if it is shown, a delayed collapse if not. */
  function Decide(filter: Option<string>, category: Option<string>, index: nat, stagger: int): (t: Timer)
    ensures t.effect == FadeIn <==> filter == Some(All) || category == filter
    ensures t.effect == FadeIn ==> t.delay == index * stagger
    ensures t.effect == Collapse ==> t.delay == HideDelay
  {
    if ShouldShow(filter, category) then Timer(index * stagger, FadeIn) else Timer(HideDelay, Collapse)
  }

  /** The styles set at once: a shown card is put back in the layout, transparent; a hidden one only turns transparent. */
  function Restyle(card: Card, show: bool): (c: Card)
    ensures c.category == card.category && c.opacity == "0"
    ensures c.display == if show then "block" else card.display
  {
    if show then card.(display := "block", opacity := "0") else card.(opacity := "0")
  }

  /** The styles a timer sets when it fires. */
  function Fire(card: Card, effect: Effect): (c: Card)
    ensures c.category == card.category
    ensures effect == FadeIn ==> c.display == card.display && c.opacity == "1"
    ensures effect == Collapse ==> c.display == "none" && c.opacity == card.opacity
  {
    match effect
    case FadeIn => card.(opacity := "1")
    case Collapse => card.(display := "none")
  }

  /**
   * Once its timer has fired, a card chosen by the filter is in the layout and
   * opaque, and any other card is out of the layout and transparent.
   */
  lemma Settles(card: Card, filter: Option<string>, index: nat, stagger: int)
    ensures var after := Fire(Restyle(card, ShouldShow(filter, card.category)), Decide(filter, card.category, index, stagger).effect);
      if ShouldShow(filter, card.category) then after.display == "block" && after.opacity == "1"
      else after.display == "none" && after.opacity == "0"
  {
  }

  /** The indices of the cards the filter shows. */
  ghost function Shown(cards: seq<Card>, filter: Option<string>): set<nat> {
    set i: nat | i < |cards| && ShouldShow(filter, cards[i].category)
  }

  /**
   * What the show rule selects: "all" selects every card; any other filter
   * selects exactly the cards of that category, so it selects a subset of what
   * "all" selects, and two different category filters never select the same card.
   */
  lemma ShowRule(cards: seq<Card>, f: string, g: string)
    requires f != All && g != All
    ensures forall i :: 0 <= i < |cards| ==> i in Shown(cards, Some(All))
    ensures forall i :: 0 <= i < |cards| ==> (i in Shown(cards, Some(f)) <==> cards[i].category == Some(f))
    ensures Shown(cards, Some(f)) <= Shown(cards, Some(All))
    ensures f != g ==> Shown(cards, Some(f)) * Shown(cards, Some(g)) == {}
  {
  }

  /** The indices of the cards whose timer fades them in. */
  ghost function FadeIns(timers: seq<Timer>): set<nat> {
    set i: nat | i < |timers| && timers[i].effect == FadeIn
  }

  /** `Array.from(cards).filter(card => card.dataset.category === category)`. */
  function InCategory(cards: seq<Card>, category: string): (r: seq<Card>)
    ensures |r| <= |cards|
    ensures forall c :: c in r ==> c in cards && c.category == Some(category)
  {
    if cards == [] then []
    else
      var last := cards[|cards| - 1];
      InCategory(cards[..|cards| - 1], category) + (if last.category == Some(category) then [last] else [])
  }

  /** Adding a card at the end adds its index to the shown set exactly when the filter shows it. */
  lemma ShownSnoc(cards: seq<Card>, filter: Option<string>)
    requires cards != []
    ensures var n := |cards| - 1;
      Shown(cards, filter) == Shown(cards[..n], filter) + (if ShouldShow(filter, cards[n].category) then {n} else {})
  {
    var n := |cards| - 1;
    forall i: nat | i < n ensures cards[..n][i] == cards[i] { }
  }

  /** The filtered list has as many cards as the filter shows for a category other than "all". */
  lemma {:induction false} InCategoryCountsShown(cards: seq<Card>, category: string)
    requires category != All
    ensures |InCategory(cards, category)| == |Shown(cards, Some(category))|
    decreases |cards|
  {
    if cards == [] {
      assert Shown(cards, Some(category)) == {};
    } else {
      var n := |cards| - 1;
      InCategoryCountsShown(cards[..n], category);
      ShownSnoc(cards, Some(category));
      assert n !in Shown(cards[..n], Some(category));
    }
  }

  /** The filter "all" shows every card. */
  lemma {:induction false} AllShowsEveryCard(cards: seq<Card>)
    ensures |Shown(cards, Some(All))| == |cards|
    decreases |cards|
  {
    if cards == [] {
      assert Shown(cards, Some(All)) == {};
    } else {
      var n := |cards| - 1;
      AllShowsEveryCard(cards[..n]);
      ShownSnoc(cards, Some(All));
      assert n !in Shown(cards[..n], Some(All));
    }
  }

  /** The timers chosen by the show rule fade in exactly the cards the filter shows. */
  lemma FadeInsAreShown(cards: seq<Card>, filter: Option<string>, stagger: int, timers: seq<Timer>)
    requires |timers| == |cards|
    requires forall i :: 0 <= i < |cards| ==> timers[i] == Decide(filter, cards[i].category, i, stagger)
    ensures FadeIns(timers) == Shown(cards, filter)
  {
  }

  /** The number of active buttons. */
  function CountActive(buttons: seq<Button>): nat {
    if buttons == [] then 0 else CountActive(buttons[..|buttons| - 1]) + (if buttons[|buttons| - 1].active then 1 else 0)
  }

  /** No active button gives a count of zero. */
  lemma {:induction false} NoneActive(buttons: seq<Button>)
    requires forall j :: 0 <= j < |buttons| ==> !buttons[j].active
    ensures CountActive(buttons) == 0
    decreases |buttons|
  {
    if buttons != [] {
      var n := |buttons| - 1;
      NoneActive(buttons[..n]);
    }
  }

  /** When exactly button b is active, exactly one button is active. */
  lemma {:induction false} ExactlyOneActive(buttons: seq<Button>, b: nat)
    requires b < |buttons|
    requires forall j :: 0 <= j < |buttons| ==> (buttons[j].active <==> j == b)
    ensures CountActive(buttons) == 1
    decreases |buttons|
  {
    var n := |buttons| - 1;
    if b == n {
      NoneActive(buttons[..n]);
    } else {
      ExactlyOneActive(buttons[..n], b);
    }
  }

  /** Removes the active class from every button, then adds it to button b. */
  method Activate(buttons: array<Button>, b: nat)
    requires b < buttons.Length
    modifies buttons
    ensures forall j :: 0 <= j < buttons.Length ==> buttons[j] == old(buttons[j]).(active := j == b)
    ensures CountActive(buttons[..]) == 1
  {
    var j := 0;
    while j < buttons.Length
      invariant 0 <= j <= buttons.Length
      invariant forall k :: 0 <= k < j ==> buttons[k] == old(buttons[k]).(active := false)
      invariant forall k :: j <= k < buttons.Length ==> buttons[k] == old(buttons[k])
    {
      buttons[j] := buttons[j].(active := false);
      j := j + 1;
    }
    buttons[b] := buttons[b].(active := true);
    ExactlyOneActive(buttons[..], b);
  }

  /**
   * Restyles every card at once by the show rule and returns the timer started
   * for each card, in card order.
   */
  method ApplyFilter(cards: array<Card>, filter: Option<string>, stagger: int) returns (timers: seq<Timer>)
    modifies cards
    ensures |timers| == cards.Length
    ensures forall i :: 0 <= i < cards.Length ==> cards[i] == Restyle(old(cards[i]), ShouldShow(filter, old(cards[i]).category))
    ensures forall i :: 0 <= i < cards.Length ==> timers[i] == Decide(filter, old(cards[i]).category, i, stagger)
    ensures FadeIns(timers) == Shown(old(cards[..]), filter)
  {
    timers := [];
    var i := 0;
    while i < cards.Length
      invariant 0 <= i <= cards.Length
      invariant |timers| == i
      invariant forall k :: 0 <= k < i ==> cards[k] == Restyle(old(cards[k]), ShouldShow(filter, old(cards[k]).category))
      invariant forall k :: 0 <= k < i ==> timers[k] == Decide(filter, old(cards[k]).category, k, stagger)
      invariant forall k :: i <= k < cards.Length ==> cards[k] == old(cards[k])
    {
      var card := cards[i];
      var shouldShow := ShouldShow(filter, card.category);
      var delay := i * stagger;
      if shouldShow {
        cards[i] := card.(display := "block", opacity := "0");
        timers := timers + [Timer(delay, FadeIn)];
      } else {
        cards[i] := card.(opacity := "0");
        timers := timers + [Timer(HideDelay, Collapse)];
      }
      i := i + 1;
    }
    FadeInsAreShown(old(cards[..]), filter, stagger, timers);
  }

  /**
   * The click handler `initProjectsPage` attaches to every button (only when
   * there are buttons and cards). Unlike `handleFilterClick` it has no guard:
   * an absent or empty `data-filter` is used as the filter as it stands.
   */
  method PageFilterClick(buttons: array<Button>, cards: array<Card>, b: nat) returns (timers: seq<Timer>)
    requires b < buttons.Length && cards.Length > 0
    modifies buttons, cards
    ensures forall j :: 0 <= j < buttons.Length ==> buttons[j] == old(buttons[j]).(active := j == b)
    ensures CountActive(buttons[..]) == 1
    ensures |timers| == cards.Length
    ensures forall i :: 0 <= i < cards.Length ==>
      cards[i] == Restyle(old(cards[i]), ShouldShow(old(buttons[b].filter), old(cards[i]).category))
    ensures forall i :: 0 <= i < cards.Length ==>
      timers[i] == Decide(old(buttons[b].filter), old(cards[i]).category, i, PageStagger)
  {
    var filter := buttons[b].filter;
    Activate(buttons, b);
    timers := ApplyFilter(cards, filter, PageStagger);
  }

  /** The `ProjectFilter` object: the buttons and cards it found, the active filter and whether it listens for clicks. */
  class ProjectFilter {
    const buttons: array<Button>
    const cards: array<Card>
    var activeFilter: string
    var listening: bool

    constructor (buttons: seq<Button>, cards: seq<Card>)
      ensures this.buttons[..] == buttons && this.cards[..] == cards
      ensures fresh(this.buttons) && fresh(this.cards)
      ensures activeFilter == All && !listening
    {
      this.buttons := new Button[|buttons|](i requires 0 <= i < |buttons| => buttons[i]);
      this.cards := new Card[|cards|](i requires 0 <= i < |cards| => cards[i]);
      activeFilter := All;
      listening := false;
    }

    /**
     * `init()`: attaches the click handler to every button, unless there are no
     * buttons or no cards. Attaching the same bound handler twice has no effect.
     */
    method Init()
      modifies this`listening
      ensures listening == (old(listening) || (buttons.Length > 0 && cards.Length > 0))
    {
      if buttons.Length == 0 || cards.Length == 0 {
        return;
      }
      listening := true;
    }

    /**
     * `handleFilterClick` for a click on button b. A missing or empty
     * `data-filter` changes nothing; otherwise exactly the clicked button
     * becomes active, its filter becomes the active filter and the cards are
     * filtered by it.
     */
    method HandleFilterClick(b: nat) returns (timers: seq<Timer>)
      requires b < buttons.Length
      modifies this, buttons, cards
      ensures old(buttons[b].filter) == None || old(buttons[b].filter) == Some("") ==>
        timers == [] && activeFilter == old(activeFilter) && listening == old(listening) &&
        buttons[..] == old(buttons[..]) && cards[..] == old(cards[..])
      ensures old(buttons[b].filter) != None && old(buttons[b].filter) != Some("") ==>
        activeFilter == old(buttons[b].filter).value && listening == old(listening) &&
        (forall j :: 0 <= j < buttons.Length ==> buttons[j] == old(buttons[j]).(active := j == b)) &&
        CountActive(buttons[..]) == 1 &&
        |timers| == cards.Length &&
        (forall i :: 0 <= i < cards.Length ==>
          cards[i] == Restyle(old(cards[i]), ShouldShow(Some(activeFilter), old(cards[i]).category))) &&
        (forall i :: 0 <= i < cards.Length ==>
          timers[i] == Decide(Some(activeFilter), old(cards[i]).category, i, FilterStagger))
    {
      var filter := buttons[b].filter;
      if filter == None || filter == Some("") {
        return [];
      }
      Activate(buttons, b);
      activeFilter := filter.value;
      timers := FilterProjects(filter.value);
    }

    /** `filterProjects`: restyles every card by the show rule with a 100 ms stagger. */
    method FilterProjects(filter: string) returns (timers: seq<Timer>)
      modifies cards
      ensures |timers| == cards.Length
      ensures forall i :: 0 <= i < cards.Length ==>
        cards[i] == Restyle(old(cards[i]), ShouldShow(Some(filter), old(cards[i]).category))
      ensures forall i :: 0 <= i < cards.Length ==>
        timers[i] == Decide(Some(filter), old(cards[i]).category, i, FilterStagger)
      ensures |FadeIns(timers)| == old(GetProjectCount(filter))
    {
      timers := ApplyFilter(cards, Some(filter), FilterStagger);
    }

    /** `getProjectCount`: the number of cards the filter with this value shows. */
    function GetProjectCount(category: string): (n: nat)
      reads cards
      ensures n == |Shown(cards[..], Some(category))|
    {
      if category == All then
        AllShowsEveryCard(cards[..]);
        cards.Length
      else
        InCategoryCountsShown(cards[..], category);
        |InCategory(cards[..], category)|
    }
  }
}
