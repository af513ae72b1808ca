/** The reminder to switch sides every n points: a transition function over combined scores, and what it
    shows over whole runs of points, undos and dismissals. */
module SideSwitch {
  import opened Schema

  /** Whether the reminder shows, and the score at which it was last dismissed. */
  datatype Reminder = Reminder(shown: bool, dismissed: Option<int>)

  function Magnitude(n: int): nat {
    if n < 0 then -n else n
  }

  /** `score % n === 0`: the sign of the divisor does not matter, and the remainder by zero is not a number
      and equals nothing. */
  predicate IsMultiple(score: int, n: int) {
    n != 0 && score % Magnitude(n) == 0
  }

  function Next(now: int, before: int, n: Option<int>, justDismissed: bool, dismissed: Option<int>): Reminder {
    if justDismissed then Reminder(false, Some(now)) else
      var cleared := if dismissed.Some? && now > dismissed.value then None else dismissed;
      var crossed := n.Some? && now > 0 && IsMultiple(now, n.value) && now > before && cleared != Some(now);
      Reminder(crossed, cleared)
  }

  /** What happens on the court screen: the combined score changes, or the reminder is dismissed. */
  datatype Event = NewScore(score: int) | Dismiss

  datatype Screen = Screen(score: int, reminder: Reminder)

  const OPENED := Screen(0, Reminder(false, None))

  function After(s: Screen, n: Option<int>, event: Event): Screen {
    match event
    case NewScore(score) => Screen(score, Next(score, s.score, n, false, s.reminder.dismissed))
    case Dismiss => Screen(s.score, Next(s.score, s.score, n, true, s.reminder.dismissed))
  }

  function Watch(s: Screen, n: Option<int>, events: seq<Event>): Screen {
    if events == [] then s else After(Watch(s, n, events[..|events| - 1]), n, events[|events| - 1])
  }

  /** How often the reminder came up. */
  function Shown(s: Screen, n: Option<int>, events: seq<Event>): nat {
    if events == [] then 0 else
      Shown(s, n, events[..|events| - 1]) + if Watch(s, n, events).reminder.shown then 1 else 0
  }

  function Points(events: seq<Event>): nat {
    if events == [] then 0 else Points(events[..|events| - 1]) + if events[|events| - 1].NewScore? then 1 else 0
  }

  /** Points come one at a time; dismissals may come at any moment. */
  predicate OneByOne(events: seq<Event>) {
    forall k | 0 <= k < |events| && events[k].NewScore? :: events[k].score == Points(events[..k]) + 1
  }

  lemma MultipleIsFar(d: int, n: int)
    requires n >= 1
    ensures d >= 1 ==> d * n >= n
    ensures d <= -1 ==> d * n <= -n
  {
  }

  lemma QuotientIs(x: nat, n: int, q: int, r: int)
    requires n >= 1 && x == q * n + r && 0 <= r < n
    ensures x / n == q && x % n == r
  {
    var d := q - x / n;
    assert d * n == x % n - r;
    MultipleIsFar(d, n);
  }

  lemma OneMultipleMore(k: nat, n: int)
    requires n >= 1
    ensures (k + 1) / n == k / n + if (k + 1) % n == 0 then 1 else 0
  {
    var q, r := k / n, k % n;
    if r + 1 == n {
      QuotientIs(k + 1, n, q + 1, 0);
    } else {
      QuotientIs(k + 1, n, q, r + 1);
    }
  }

  /** Over k points scored one by one from zero the reminder comes up exactly k / n times, however many
      dismissals are interleaved; without a threshold, or with zero, it never does. */
  lemma {:induction false} ReminderEveryNPoints(n: Option<int>, events: seq<Event>)
    requires OneByOne(events)
    ensures Watch(OPENED, n, events).score == Points(events)
    ensures var d := Watch(OPENED, n, events).reminder.dismissed; d.Some? ==> d.value <= Points(events)
    ensures Shown(OPENED, n, events) == if n.Some? && n.value != 0 then Points(events) / Magnitude(n.value) else 0
  {
    if events == [] {
      if n.Some? && n.value != 0 { assert 0 / Magnitude(n.value) == 0; }
    } else {
      var last := |events| - 1;
      assert forall k | 0 <= k <= last :: events[..last][..k] == events[..k];
      ReminderEveryNPoints(n, events[..last]);
      if n.Some? && n.value != 0 {
        OneMultipleMore(Points(events[..last]), Magnitude(n.value));
      }
    }
  }

  predicate StaysUpTo(events: seq<Event>, top: int) {
    forall k | 0 <= k < |events| :: events[k].NewScore? && events[k].score <= top
  }

  /** After a dismissal at `top` points can be undone and scored again as often as one likes: as long as
      the score stays at or below `top` and nobody dismisses again, the reminder does not come back at
      `top`, and the dismissal is remembered. */
  lemma {:induction false} DismissalLasts(s: Screen, n: Option<int>, events: seq<Event>)
    requires StaysUpTo(events, s.score)
    ensures var later := Watch(After(s, n, Dismiss), n, events);
            && later.reminder.dismissed == Some(s.score)
            && (later.score == s.score ==> !later.reminder.shown)
  {
    if events != [] {
      DismissalLasts(s, n, events[..|events| - 1]);
    }
  }

  /** Once the score goes past the dismissal, it is forgotten. */
  lemma PassingForgets(s: Screen, n: Option<int>, events: seq<Event>, score: int)
    requires StaysUpTo(events, s.score) && score > s.score
    ensures var before := Watch(After(s, n, Dismiss), n, events);
            After(before, n, NewScore(score)).reminder.dismissed == None
  {
    DismissalLasts(s, n, events);
  }
}
