/**
  The answer extraction of the evaluation driver (mABC/main/main.py): the text after
  the last "Final Answer:" marker, stripped, or the whole text when the marker is
  absent.
*/
module FinalAnswer {
  import opened PyStr

  const Marker := "Final Answer:"

  /** `extract_final_answer`. */
  function ExtractFinalAnswer(text: string): (r: string)
    ensures !Contains(text, Marker) ==> r == text
    ensures Contains(text, Marker) ==> !Contains(r, Marker)
  {
    if Contains(text, Marker) then
      var piece := LastPiece(text, Marker);
      StripLacks(piece, Marker);
      Strip(piece)
    else text
  }

  /** With the marker present, the answer is the stripped text after an occurrence of
      the marker that no later occurrence follows. */
  lemma {:induction false} AnswerFollowsLastMarker(text: string)
    requires Contains(text, Marker)
    ensures exists j: nat ::
      && MatchAt(text, Marker, j)
      && ExtractFinalAnswer(text) == Strip(text[j + |Marker|..])
      && forall k :: j + |Marker| <= k ==> !MatchAt(text, Marker, k)
  {
    var j := LastOccurrence(text, Marker);
    assert ExtractFinalAnswer(text) == Strip(text[j + |Marker|..]);
  }

  /** Extracting twice gives what extracting once gives. */
  lemma {:induction false} ExtractIdempotent(text: string)
    ensures ExtractFinalAnswer(ExtractFinalAnswer(text)) == ExtractFinalAnswer(text)
  {
  }
}
