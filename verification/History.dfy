/** The bounded history of a room as the tail of an unbounded log. */
module History {
  import opened Types

  /** The size comparison is unsigned, so a negative limit never cuts anything. */
  predicate TooLong(n: nat, maxHistory: int) {
    0 <= maxHistory < n
  }

  function LastOf<T>(s: seq<T>, maxHistory: int): seq<T> {
    if TooLong(|s|, maxHistory) then s[|s| - maxHistory..] else s
  }

  /** Only public messages are kept. */
  function AddToHistory(h: seq<Message>, m: Message, maxHistory: int): seq<Message> {
    if m.toId == 0 then LastOf(h + [m], maxHistory) else h
  }

  /** Cutting after every message is the same as cutting the whole log once. */
  lemma LastOfAppend(log: seq<Message>, m: Message, maxHistory: int)
    requires m.toId == 0
    ensures AddToHistory(LastOf(log, maxHistory), m, maxHistory) == LastOf(log + [m], maxHistory)
  {
    var h := LastOf(log, maxHistory);
    if TooLong(|log|, maxHistory) {
      assert h + [m] == (log + [m])[|log| - maxHistory..];
    }
  }

  /** Message ids count up from 0 on a wrapping counter; nothing private is in the log. */
  ghost predicate Numbered(log: seq<Message>) {
    forall i :: 0 <= i < |log| ==> log[i].id == i % U32 && log[i].toId == 0
  }

  lemma NumberedAppend(log: seq<Message>, m: Message)
    requires Numbered(log) && m.id == |log| % U32 && m.toId == 0
    ensures Numbered(log + [m])
    ensures |log + [m]| % U32 == (|log| % U32 + 1) % U32
  {
  }

  lemma WrapNext(i: nat)
    ensures (i + 1) % U32 == (i % U32 + 1) % U32
  {
  }

  lemma LastOfAt<T>(s: seq<T>, maxHistory: int, i: nat)
    requires i < |LastOf(s, maxHistory)|
    ensures |LastOf(s, maxHistory)| <= |s|
    ensures LastOf(s, maxHistory)[i] == s[|s| - |LastOf(s, maxHistory)| + i]
  {
  }

  /** Neighbours in a history have consecutive ids modulo 2^32. */
  lemma HistoryConsecutive(log: seq<Message>, maxHistory: int, i: nat)
    requires Numbered(log) && i + 1 < |LastOf(log, maxHistory)|
    ensures LastOf(log, maxHistory)[i + 1].id == (LastOf(log, maxHistory)[i].id + 1) % U32
  {
    LastOfAt(log, maxHistory, i);
    LastOfAt(log, maxHistory, i + 1);
    WrapNext(|log| - |LastOf(log, maxHistory)| + i);
  }

  /** The last message of a history has the id before the next one to be given out. */
  lemma HistoryEnd(log: seq<Message>, maxHistory: int)
    requires Numbered(log) && LastOf(log, maxHistory) != []
    ensures var h := LastOf(log, maxHistory); (h[|h| - 1].id + 1) % U32 == |log| % U32
  {
    LastOfAt(log, maxHistory, |LastOf(log, maxHistory)| - 1);
    WrapNext(|log| - 1);
  }
}
