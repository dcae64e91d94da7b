/**
 * The live assistant's transcript (`components/FloatingConsole.tsx`): the
 * list of exchanges, each a user line and an assistant line, rewritten by
 * the input and output transcriptions the live session delivers and by the
 * typed messages sent to it. The session itself (audio, the network, tool
 * calls) is not modelled; whether one is open is a flag.
 */
module LiveConsole {
  import opened Wrappers
  import Strings

  /** One exchange of the transcript. */
  datatype Entry = Entry(user: string, ai: string)

  const Placeholder: string := "Musa analyse votre message..."
  const Greeting: Entry := Entry("", "Je vous écoute, patron. Comment puis-je faire prospérer votre business aujourd'hui ?")

  /** All entries but the last. */
  function Settled(ts: seq<Entry>): seq<Entry>
  {
    if ts == [] then [] else ts[..|ts| - 1]
  }

  /**
   * An input transcription: while the last exchange has no answer yet the
   * words are added to its user line; otherwise a new exchange is opened.
   */
  function OnInput(ts: seq<Entry>, text: string): (r: seq<Entry>)
    ensures Settled(ts) <= r
    ensures ts != [] && ts[|ts| - 1].ai == "" ==>
      |r| == |ts| && r[|r| - 1] == ts[|ts| - 1].(user := Strings.Trim(ts[|ts| - 1].user + " " + text))
    ensures ts == [] || ts[|ts| - 1].ai != "" ==> r == ts + [Entry(text, "")]
  {
    if ts != [] && ts[|ts| - 1].ai == "" then
      var last := ts[|ts| - 1];
      ts[..|ts| - 1] + [last.(user := Strings.Trim(last.user + " " + text))]
    else
      ts + [Entry(text, "")]
  }

  /**
   * An output transcription: added to the last exchange's answer (the
   * waiting placeholder is dropped first); on an empty list a new exchange
   * is opened with no user line.
   */
  function OnOutput(ts: seq<Entry>, text: string): (r: seq<Entry>)
    ensures Settled(ts) <= r
    ensures ts != [] ==> |r| == |ts| && r[|r| - 1].user == ts[|ts| - 1].user
    ensures ts != [] && Waiting(ts[|ts| - 1].ai) ==> r[|r| - 1].ai == Strings.Trim(text)
    ensures ts != [] && !Waiting(ts[|ts| - 1].ai) ==> r[|r| - 1].ai == Strings.Trim(ts[|ts| - 1].ai + " " + text)
    ensures ts == [] ==> r == [Entry("", text)]
  {
    if ts == [] then [Entry("", text)]
    else
      var last := ts[|ts| - 1];
      var answer := Answer(last.ai, text);
      ts[..|ts| - 1] + [last.(ai := answer)]
  }

  /** The answer so far contains the marker of the waiting placeholder. */
  predicate Waiting(ai: string)
  {
    Strings.Contains(ai, "Musa analyse")
  }

  /** The answer line once `text` is heard: appended to it, or replacing the placeholder. */
  function Answer(ai: string, text: string): (r: string)
    ensures Waiting(ai) ==> r == Strings.Trim(text)
    ensures !Waiting(ai) ==> r == Strings.Trim(ai + " " + text)
  {
    var kept := if Waiting(ai) then "" else ai;
    assert kept == "" ==> kept + " " + text == " " + text;
    Strings.TrimLeadingSpace(text);
    Strings.Trim(kept + " " + text)
  }

  /** `sendHybridText`'s new exchange: the typed text, trimmed, awaiting an answer. */
  function Sent(ts: seq<Entry>, typed: string): (r: seq<Entry>)
    requires !Strings.IsBlank(typed)
    ensures |r| == |ts| + 1 && r[..|ts|] == ts
    ensures r[|ts|].user != "" && r[|ts|].ai == Placeholder
  {
    ts + [Entry(Strings.Trim(typed), Placeholder)]
  }

  /** The placeholder holds the marker the output rule looks for. */
  lemma PlaceholderMarked()
    ensures Waiting(Placeholder)
  {
    assert "Musa analyse" <= Placeholder;
  }

  /** The first answer to a typed message replaces the placeholder instead of following it. */
  lemma AnswerReplacesPlaceholder(ts: seq<Entry>, typed: string, text: string)
    requires !Strings.IsBlank(typed)
    ensures OnOutput(Sent(ts, typed), text) == ts + [Entry(Strings.Trim(typed), Strings.Trim(text))]
  {
    PlaceholderMarked();
    var s := Sent(ts, typed);
    assert s[..|s| - 1] == ts;
  }

  /** Two input fragments after an answered exchange end up in one new exchange. */
  lemma InputFragmentsMerge(ts: seq<Entry>, a: string, b: string)
    requires ts == [] || ts[|ts| - 1].ai != ""
    ensures OnInput(OnInput(ts, a), b) == ts + [Entry(Strings.Trim(a + " " + b), "")]
  {
    var s := OnInput(ts, a);
    assert s[..|s| - 1] == ts;
  }

  /** A live-session event that touches the transcript. */
  datatype Event = Input(text: string) | Output(text: string)

  function Step(ts: seq<Entry>, e: Event): seq<Entry>
  {
    match e
    case Input(text) => OnInput(ts, text)
    case Output(text) => OnOutput(ts, text)
  }

  function Replay(ts: seq<Entry>, es: seq<Event>): seq<Entry>
    decreases |es|
  {
    if es == [] then ts else Replay(Step(ts, es[0]), es[1..])
  }

  /** One event leaves every settled exchange where it was and adds at most one. */
  lemma StepKeepsSettled(ts: seq<Entry>, e: Event)
    ensures Settled(ts) <= Settled(Step(ts, e))
    ensures |ts| <= |Step(ts, e)| <= |ts| + 1
  {
  }

  /**
   * However many transcriptions arrive, the exchanges before the last one
   * are never rewritten, and the list grows by at most one per event.
   */
  lemma {:induction false} HistoryIsStable(ts: seq<Entry>, es: seq<Event>)
    ensures Settled(ts) <= Settled(Replay(ts, es))
    ensures |ts| <= |Replay(ts, es)| <= |ts| + |es|
    decreases |es|
  {
    if es != [] {
      var next := Step(ts, es[0]);
      StepKeepsSettled(ts, es[0]);
      HistoryIsStable(next, es[1..]);
    }
  }

  /** The assistant bubble's state. */
  class FloatingConsole {
    var transcriptions: seq<Entry>
    var hybridText: string
    var isLive: bool
    var isOpen: bool
    /** Whether a live session is held (`sessionRef.current`). */
    var hasSession: bool

    constructor()
      ensures transcriptions == [] && hybridText == "" && !isLive && !isOpen && !hasSession
    {
      transcriptions := [];
      hybridText := "";
      isLive := false;
      isOpen := false;
      hasSession := false;
    }

    /** `stopLive`: the session is dropped; the transcript stays. */
    method StopLive()
      modifies this
      ensures !isLive && !hasSession
      ensures transcriptions == old(transcriptions) && hybridText == old(hybridText) && isOpen == old(isOpen)
    {
      isLive := false;
      hasSession := false;
    }

    /** `startLive`: stops a running session, or opens one on a transcript holding only the greeting. */
    method StartLive()
      modifies this
      ensures old(isLive) ==> !isLive && !hasSession && transcriptions == old(transcriptions) && isOpen == old(isOpen)
      ensures !old(isLive) ==> isLive && hasSession && !isOpen && transcriptions == [Greeting]
      ensures hybridText == old(hybridText)
    {
      if isLive {
        StopLive();
        return;
      }
      isLive := true;
      isOpen := false;
      transcriptions := [Greeting];
      hasSession := true;
    }

    method TypeText(text: string)
      modifies this
      ensures hybridText == text
      ensures transcriptions == old(transcriptions) && isLive == old(isLive) && isOpen == old(isOpen)
      ensures hasSession == old(hasSession)
    {
      hybridText := text;
    }

    /**
     * `sendHybridText`: blank text or no session changes nothing; otherwise
     * the trimmed text is sent, shown with the placeholder, and the field is emptied.
     */
    method SendHybridText() returns (sent: Option<string>)
      modifies this
      ensures Strings.IsBlank(old(hybridText)) || !hasSession ==>
        sent.None? && hybridText == old(hybridText) && transcriptions == old(transcriptions)
      ensures !Strings.IsBlank(old(hybridText)) && hasSession ==>
        && sent == Some(Strings.Trim(old(hybridText)))
        && hybridText == ""
        && transcriptions == Sent(old(transcriptions), old(hybridText))
      ensures isLive == old(isLive) && isOpen == old(isOpen) && hasSession == old(hasSession)
    {
      if Strings.Trim(hybridText) == "" || !hasSession {
        return None;
      }
      var txt := Strings.Trim(hybridText);
      transcriptions := Sent(transcriptions, hybridText);
      hybridText := "";
      sent := Some(txt);
    }

    method OnInputTranscription(text: string)
      modifies this
      ensures transcriptions == OnInput(old(transcriptions), text)
      ensures hybridText == old(hybridText) && isLive == old(isLive) && isOpen == old(isOpen)
      ensures hasSession == old(hasSession)
    {
      transcriptions := OnInput(transcriptions, text);
    }

    method OnOutputTranscription(text: string)
      modifies this
      ensures transcriptions == OnOutput(old(transcriptions), text)
      ensures hybridText == old(hybridText) && isLive == old(isLive) && isOpen == old(isOpen)
      ensures hasSession == old(hasSession)
    {
      transcriptions := OnOutput(transcriptions, text);
    }
  }
}
