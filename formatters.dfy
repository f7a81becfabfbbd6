/** The sign marker shown beside a change (utils/formatters.py). */
module Formatters {

  const GREEN: string := "🟢"
  const RED: string := "🔴"
  const YELLOW: string := "🟡"

  /** Green for a rise, red for a fall, yellow for no change. */
  function Emoji(diff: real): (m: string)
    ensures m == GREEN <==> diff > 0.0
    ensures m == RED <==> diff < 0.0
    ensures m == YELLOW <==> diff == 0.0
  {
    if diff > 0.0 then GREEN else if diff < 0.0 then RED else YELLOW
  }

  /** Every change gets exactly one of the three markers. */
  lemma EmojiIsOneOfThree(diff: real)
    ensures Emoji(diff) in {GREEN, RED, YELLOW}
    ensures GREEN != RED && RED != YELLOW && GREEN != YELLOW
  {
  }
}
