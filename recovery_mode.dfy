/**
 * The recovery-mode card of the dashboard
 * (src/components/dashboard/RecoveryModeCard.tsx): which of its four
 * encouraging messages is shown for a number of missed days.
 */
module RecoveryMode {
  import opened Wrappers

  const Messages: seq<string> := [
    "Life happens. Let's ease back in.",
    "A gentle restart is still progress.",
    "Small steps today, momentum tomorrow.",
    "You're back — that's what matters."
  ]

  /** `Math.min(missedDays - 1, recoveryMessages.length - 1)`. */
  function MessageIndex(missedDays: int): (i: int)
    ensures i <= |Messages| - 1 && i <= missedDays - 1
    ensures i == missedDays - 1 || i == |Messages| - 1
  {
    if missedDays - 1 < |Messages| - 1 then missedDays - 1 else |Messages| - 1
  }

  /** The message shown; `None` where the array read is out of range (`undefined`). */
  function Message(missedDays: int): (m: Option<string>)
    ensures m.Some? <==> 0 <= MessageIndex(missedDays)
    ensures m.Some? ==> m.value in Messages
  {
    var i := MessageIndex(missedDays);
    if 0 <= i < |Messages| then Some(Messages[i]) else None
  }

  /** One, two and three missed days pick the first three messages; four or more always the last. */
  lemma MessageSelection(missedDays: int)
    ensures 1 <= missedDays <= 3 ==> Message(missedDays) == Some(Messages[missedDays - 1])
    ensures missedDays >= 4 ==> Message(missedDays) == Some(Messages[3])
  {
  }

  /** Any positive count of missed days reads inside the array. */
  lemma IndexInRange(missedDays: int)
    requires missedDays >= 1
    ensures 0 <= MessageIndex(missedDays) < |Messages|
  {
  }

  /** With no missed days (or a negative count) the index is negative and no message exists: nothing guards this. */
  lemma NoMessageWithoutMissedDays(missedDays: int)
    requires missedDays <= 0
    ensures MessageIndex(missedDays) < 0 && Message(missedDays).None?
  {
  }
}
