/** The conversation entries shown in the transcription panel. */
module Types {

  /** Whether an entry is the user's own words or the generated answer. */
  datatype MessageType = Transcription | Answer

  /**
   * One conversation entry. The source's id is the decimal text of a
   * millisecond clock reading; here it is the reading itself.
   */
  datatype Message = Message(id: nat, kind: MessageType, text: string)

  /** The texts of the Transcription entries of `ms`, in display order. */
  function Transcriptions(ms: seq<Message>): seq<string> {
    if ms == [] then []
    else
      var last := ms[|ms| - 1];
      Transcriptions(ms[..|ms| - 1]) + (if last.kind == Transcription then [last.text] else [])
  }

  /** The texts of the Answer entries of `ms`, in display order. */
  function Answers(ms: seq<Message>): seq<string> {
    if ms == [] then []
    else
      var last := ms[|ms| - 1];
      Answers(ms[..|ms| - 1]) + (if last.kind == Answer then [last.text] else [])
  }

  /** Appending one entry extends exactly one of the two views by its text. */
  lemma ViewsOfAppend(ms: seq<Message>, m: Message)
    ensures Transcriptions(ms + [m]) ==
      Transcriptions(ms) + (if m.kind == Transcription then [m.text] else [])
    ensures Answers(ms + [m]) == Answers(ms) + (if m.kind == Answer then [m.text] else [])
  {
    assert (ms + [m])[..|ms + [m]| - 1] == ms;
  }
}
