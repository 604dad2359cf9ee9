// The racer's two small helpers: a phrase picker that avoids the last two
// phrases it said, and the list of floating messages it writes into.

module Level1Utils {
  import opened Common

  /** How many recent phrases the history remembers. */
  const HISTORY_LENGTH: int := 2

  datatype FloatingMessage = FloatingMessage(text: string, x: real, y: real, life: real)

  /** phrases.filter(p => !history.includes(p)) */
  function Available(phrases: seq<string>, history: seq<string>): (r: seq<string>)
    ensures forall p :: p in r <==> p in phrases && p !in history
    ensures |r| <= |phrases|
  {
    if phrases == [] then []
    else (if phrases[0] in history then [] else [phrases[0]]) + Available(phrases[1..], history)
  }

  /**
   * The phrase drawn by `roll`: from the phrases not in the history, or from
   * all of them once every phrase is recent.
   */
  function PickPhrase(phrases: seq<string>, history: seq<string>, roll: real): (p: string)
    requires phrases != [] && 0.0 <= roll < 1.0
    ensures p in phrases
    ensures (exists q :: q in phrases && q !in history) ==> p !in history
  {
    var available := Available(phrases, history);
    var source := if |available| > 0 then available else phrases;
    source[PickIndex(roll, |source|)]
  }

  /** The history after push(phrase) and, past two entries, shift(). */
  function Remembered(history: seq<string>, phrase: string): (h: seq<string>)
    ensures |h| > 0 && h[|h| - 1] == phrase
    ensures |history| <= HISTORY_LENGTH ==> |h| <= HISTORY_LENGTH
    ensures |h| <= |history| + 1
    ensures h == (history + [phrase])[|history| + 1 - |h|..]
  {
    var pushed := history + [phrase];
    if |pushed| > HISTORY_LENGTH then pushed[1..] else pushed
  }

  /** The mutable history array a phrase set shares across calls. */
  class PhraseHistory {
    var recent: seq<string>

    constructor ()
      ensures recent == []
    {
      recent := [];
    }
  }

  /**
   * getNextPhrase: draws a phrase that is not among the recent ones when
   * there is one, and records it as the latest.
   */
  method GetNextPhrase(phrases: seq<string>, history: PhraseHistory, roll: real) returns (phrase: string)
    requires phrases != [] && 0.0 <= roll < 1.0
    modifies history
    ensures phrase == PickPhrase(phrases, old(history.recent), roll)
    ensures history.recent == Remembered(old(history.recent), phrase)
  {
    phrase := PickPhrase(phrases, history.recent, roll);
    history.recent := history.recent + [phrase];
    if |history.recent| > HISTORY_LENGTH {
      history.recent := history.recent[1..];
    }
  }

  /** Two draws in a row never repeat while some phrase is not recent. */
  lemma NoImmediateRepeat(phrases: seq<string>, history: seq<string>, roll: real, q: string)
    requires phrases != [] && 0.0 <= roll < 1.0 && |history| > 0
    requires q in phrases && q !in history
    ensures PickPhrase(phrases, history, roll) != history[|history| - 1]
  {
  }

  /** The mutable list of floating messages. */
  class MessageBoard {
    var messages: seq<FloatingMessage>

    constructor ()
      ensures messages == []
    {
      messages := [];
    }
  }

  /** addFloatingMessage: one new message at full life after the existing ones. */
  method AddFloatingMessage(board: MessageBoard, text: string, x: real, y: real)
    modifies board
    ensures board.messages == old(board.messages) + [FloatingMessage(text, x, y, 1.0)]
  {
    board.messages := board.messages + [FloatingMessage(text, x, y, 1.0)];
  }
}
