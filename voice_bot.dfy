/** The voice-message side of the diary bot: what the recognizer's result becomes, how the language
    model's rewrite is accepted or replaced by the original, the row one memory is stored as, the
    bot object with its lazy connection to the store, and the steps the voice-message handler
    takes. Telegram, the recognizer, the language model and the clock are outside the model: what
    they answer is passed in. */
module VoiceBot {
  import opened PyText
  import opened Memories
  import opened SheetsStore
  import opened SummaryFormat

  // ---------------------------------------------------------------------------
  // Transcription

  /** What one recognition run ends with. */
  datatype Recognition =
    | RecognizedSpeech(text: string)
    | NoMatch
    | Canceled(byError: bool)   // the cancellation reason is only logged
    | OtherReason               // any other result reason: nothing is returned
    | Raised                    // converting the audio or running the recognizer raised

  /** `_transcribe_audio`: the recognized text without surrounding whitespace, or nothing when
      no speech was recognized or the text is shorter than three characters. */
  function Transcript(rec: Recognition): (r: Option<string>)
    ensures r.Some? <==> rec.RecognizedSpeech? && |Strip(rec.text, Whitespace)| >= 3
    ensures r.Some? ==> r.value == Strip(rec.text, Whitespace)
  {
    match rec
    case RecognizedSpeech(text) =>
      var t := Strip(text, Whitespace);
      if |t| < 3 then None else Some(t)
    case _ => None
  }

  /** A transcript is a piece of what was recognized, at least three characters long, with no
      whitespace around it, so stripping it again changes nothing. */
  lemma TranscriptIsClean(rec: Recognition)
    requires Transcript(rec).Some?
    ensures var t := Transcript(rec).value;
      && |t| >= 3 && IsSubstring(t, rec.text)
      && !InSet(t[0], Whitespace) && !InSet(t[|t| - 1], Whitespace)
      && Strip(t, Whitespace) == t
  {
    var t := Strip(rec.text, Whitespace);
    assert t != [];
    StripIsSubstring(rec.text, Whitespace);
    StripIdempotent(rec.text, Whitespace);
  }

  // ---------------------------------------------------------------------------
  // Enhancement

  /** `_enhance_text`. `reply` is the model's answer (`None`: the call raised). The stripped
      answer replaces the text only when it has at least ten characters; then all leading and
      trailing `"` and after them all leading and trailing `'` are removed. */
  function Enhance(text: string, reply: Option<string>): (r: string)
    ensures reply.None? ==> r == text
    ensures reply.Some? && |Strip(reply.value, Whitespace)| < 10 ==> r == text
  {
    match reply
    case None => text
    case Some(content) =>
      var enhanced := Strip(content, Whitespace);
      if enhanced == [] || |enhanced| < 10 then text
      else Strip(Strip(enhanced, Just('"')), Just('\''))
  }

  /** An accepted answer is a piece of the model's answer that neither starts nor ends with `'`. */
  lemma EnhanceAccepted(text: string, content: string)
    requires |Strip(content, Whitespace)| >= 10
    ensures var r := Enhance(text, Some(content));
      && IsSubstring(r, content)
      && (r != [] ==> r[0] != '\'' && r[|r| - 1] != '\'')
  {
    var e := Strip(content, Whitespace);
    var q := Strip(e, Just('"'));
    var r := Strip(q, Just('\''));
    StripIsSubstring(content, Whitespace);
    StripIsSubstring(e, Just('"'));
    StripIsSubstring(q, Just('\''));
    SubstringTransitive(q, e, content);
    SubstringTransitive(r, q, content);
  }

  /** The length check comes before the quotes are removed: an answer of ten or more quote
      characters is accepted and leaves an empty text. */
  lemma EnhanceOfQuotesOnly(text: string, content: string)
    requires |content| >= 10 && forall i :: 0 <= i < |content| ==> content[i] == '"'
    ensures Enhance(text, Some(content)) == ""
  {
    StripUnchanged(content, Whitespace);
    assert forall i :: 0 <= i < |content| ==> InSet(content[i], Just('"'));
    StripAll(content, Just('"'));
  }

  // ---------------------------------------------------------------------------
  // Timestamps and the stored row

  /** A Europe/Berlin wall-clock reading. */
  datatype DateTime = DateTime(year: int, month: int, day: int, hour: int, minute: int, second: int)

  predicate Plausible(t: DateTime) {
    && 1000 <= t.year <= 9999 && 1 <= t.month <= 12 && 1 <= t.day <= 31
    && 0 <= t.hour < 24 && 0 <= t.minute < 60 && 0 <= t.second < 60
  }

  /** What the clock can read: four-digit years. */
  type Stamp = t: DateTime | Plausible(t) witness DateTime(2024, 1, 1, 0, 0, 0)

  /** `strftime("%Y-%m-%d")`. */
  function DayString(t: Stamp): string {
    IntToString(t.year) + "-" + Pad2(t.month) + "-" + Pad2(t.day)
  }

  /** `strftime("%H:%M:%S")`. */
  function TimeString(t: Stamp): string {
    Pad2(t.hour) + ":" + Pad2(t.minute) + ":" + Pad2(t.second)
  }

  /** `strftime("%Y-%m-%d %H:%M:%S")`. */
  function DateString(t: Stamp): string {
    DayString(t) + " " + TimeString(t)
  }

  /** The day part has ten characters and no space. */
  lemma DayStringShape(t: Stamp)
    ensures |DayString(t)| == 10 && ' ' !in DayString(t)
  {
    FourDigits(t.year);
    var y := IntToString(t.year);
    assert y == NatToString(t.year);
    assert forall i :: 0 <= i < |y| ==> IsDigit(y[i]);
    var d := DayString(t);
    assert forall i :: 0 <= i < |d| ==> IsDigit(d[i]) || d[i] == '-';
  }

  /** `strftime("%Y-%m")`. */
  function MonthString(t: Stamp): string {
    IntToString(t.year) + "-" + Pad2(t.month)
  }

  /** `strftime("%Y")`. */
  function YearString(t: Stamp): string {
    IntToString(t.year)
  }

  /** `strftime("%d.%m.%Y um %H:%M Uhr")`, shown in the confirmation. */
  function GermanStamp(t: Stamp): string {
    Pad2(t.day) + "." + Pad2(t.month) + "." + IntToString(t.year) + " um "
      + Pad2(t.hour) + ":" + Pad2(t.minute) + " Uhr"
  }

  /** The row `_save_to_sheets` stores, all three time columns read from one timestamp. */
  function MemoryRow(t: Stamp, original: string, enhanced: string): (row: seq<string>)
    ensures |row| == |Headers| && row[0] == DateString(t)
    ensures row[1] == original && row[2] == enhanced
    ensures |row[0]| == 19 && row[3] == row[0][..7] && row[4] == row[0][..4]
    ensures row[3] == MonthKey(t.year, t.month) && row[4] == IntToString(t.year)
  {
    DatePrefixes(t);
    [DateString(t), original, enhanced, MonthString(t), YearString(t)]
  }

  /** The month and year columns are prefixes of the date column: `%Y-%m` and `%Y` of the same
      reading. */
  lemma DatePrefixes(t: Stamp)
    ensures |DateString(t)| == 19
    ensures DateString(t)[..7] == MonthString(t) && DateString(t)[..4] == YearString(t)
  {
    FourDigits(t.year);
    DayStringShape(t);
    var date := DateString(t);
    assert date[..10] == DayString(t);
    assert DayString(t)[..7] == MonthString(t);
    assert DayString(t)[..4] == YearString(t);
  }

  /** The record the sheet hands back for a stored row under the header row. */
  function RowRecord(row: seq<string>): (m: Record)
    requires |row| == |Headers|
    ensures forall i :: 0 <= i < |Headers| ==> Matches(m, Headers[i], row[i]) && Get(m, Headers[i]) == row[i]
  {
    map[DateColumn := row[0], OriginalColumn := row[1], EnhancedColumn := row[2],
        MonthColumn := row[3], YearColumn := row[4]]
  }

  /** A stored memory is found again: the month and year queries for its timestamp select it, the
      summaries parse its month back and list it under its date. */
  lemma SavedMemoryIsFound(t: Stamp, original: string, enhanced: string)
    ensures var m := RowRecord(MemoryRow(t, original, enhanced));
      && Matches(m, MonthColumn, MonthKey(t.year, t.month))
      && Matches(m, YearColumn, IntToString(t.year))
      && MonthNumber(Get(m, MonthColumn)) == Some(t.month)
      && DatePart(m) == DayString(t)
      && Get(m, OriginalColumn) == original && Get(m, EnhancedColumn) == enhanced
  {
    var row := MemoryRow(t, original, enhanced);
    var m := RowRecord(row);
    assert Headers[0] == DateColumn && Headers[1] == OriginalColumn && Headers[2] == EnhancedColumn;
    assert Headers[3] == MonthColumn && Headers[4] == YearColumn;
    assert Get(m, MonthColumn) == MonthKey(t.year, t.month);
    MonthNumberOfKey(t.year, t.month);
    assert Get(m, DateColumn) == DayString(t) + " " + TimeString(t);
    DayStringShape(t);
    BeforeFirstOfJoin(DayString(t), ' ', TimeString(t));
  }

  // ---------------------------------------------------------------------------
  // Messages

  /** What the handler shows: the status texts, the generic error and the final report. */
  datatype Message =
    | Processing | TooLong | Loading | Transcribing | NotUnderstood | Enhancing | Saving
    | GenericError
    | Report(saved: bool, transcript: string, enhanced: string, at: Stamp)

  const TranscriptLabel := "\n\n📝 **Original-Transkript:**\n_"
  const EnhancedLabel := "_\n\n✨ **Aufbereitete Version:**\n"

  const SuccessHead := "✅" + " **Erinnerung erfolgreich gespeichert!**"
  const PartialHead := "⚠️" + " **Transkription erfolgreich, aber Speichern fehlgeschlagen**"

  function ReportHead(saved: bool): (h: string)
    ensures |h| > 0 && h[0] == if saved then '✅' else '⚠'
  {
    if saved then SuccessHead else PartialHead
  }

  function ReportTail(saved: bool, at: Stamp): string {
    if saved then
      "\n\n📅 **Gespeichert am:** " + GermanStamp(at) + "\n\n💝 Eine weitere schöne Erinnerung für deine Tochter!"
    else
      "\n\n❌ **Hinweis:** Die Erinnerung konnte nicht in der Google-Tabelle gespeichert werden. "
      + "Das wird in Phase 3 behoben.\n\n💡 **Tipp:** Kopiere dir den Text als Backup!"
  }

  /** The text of a message. */
  function Text(m: Message): string {
    match m
    case Processing => "🎤 Verarbeite deine Sprachnachricht..."
    case TooLong => "❌ Sprachnachricht zu lang! Bitte sende maximal 5 Minuten."
    case Loading => "📥 Lade Sprachnachricht herunter..."
    case Transcribing => "🎯 Transkribiere Sprachnachricht..."
    case NotUnderstood =>
      "❌ Entschuldigung, ich konnte die Sprachnachricht nicht verstehen.\n\n💡 Tipps:\n"
      + "• Sprich deutlich und nicht zu schnell\n• Vermeide Hintergrundgeräusche\n"
      + "• Sprich mindestens 2-3 Sekunden"
    case Enhancing => "✨ Bereite Text auf..."
    case Saving => "💾 Speichere Erinnerung..."
    case GenericError =>
      "❌ Ein unerwarteter Fehler ist aufgetreten.\n\n🔧 Bitte versuche es in ein paar Minuten erneut.\n"
      + "📞 Falls das Problem weiterhin besteht, wende dich an den Administrator."
    case Report(saved, t, e, at) => ReportText(saved, t, e, at)
  }

  /** A report opens with ✅ exactly when storing succeeded and with ⚠ otherwise. */
  function ReportText(saved: bool, transcript: string, enhanced: string, at: Stamp): (r: string)
    ensures |r| > 0 && (r[0] == '✅' <==> saved) && (r[0] == '⚠' <==> !saved)
  {
    var h := ReportHead(saved);
    var r := h + TranscriptLabel + transcript + EnhancedLabel + enhanced + ReportTail(saved, at);
    assert r[0] == h[0];
    r
  }

  /** Either report shows both the transcript and the enhanced text. */
  lemma ReportShowsBothTexts(saved: bool, transcript: string, enhanced: string, at: Stamp)
    ensures IsSubstring(transcript, ReportText(saved, transcript, enhanced, at))
    ensures IsSubstring(enhanced, ReportText(saved, transcript, enhanced, at))
  {
    var h := ReportHead(saved);
    var tail := ReportTail(saved, at);
    var front := h + TranscriptLabel + transcript + EnhancedLabel;
    SubstringOfConcat(h + TranscriptLabel, transcript, EnhancedLabel);
    SubstringOfPrefix(front, enhanced, tail);
    SubstringTransitive(transcript, front, ReportText(saved, transcript, enhanced, at));
    SubstringOfConcat(front, enhanced, tail);
  }

  // ---------------------------------------------------------------------------
  // The handler's steps

  /** One step of `handle_voice_message`. */
  datatype Action =
    | SendMessage(message: Message)   // a new chat message
    | EditStatus(message: Message)    // the status message is edited to read the message
    | GetFile                         // the voice file's handle is fetched
    | DownloadFile                    // the voice file is downloaded
    | RecognizeSpeech                 // `_transcribe_audio`, which handles its own errors
    | AskModel                        // `_enhance_text`, which handles its own errors
    | StoreRow                        // `_save_to_sheets`, which handles its own errors

  /** The steps that talk to Telegram and can raise. */
  predicate MayRaise(a: Action) {
    a.SendMessage? || a.EditStatus? || a.GetFile? || a.DownloadFile?
  }

  /** The steps up to and including the recognition. */
  const Intake: seq<Action> :=
    [SendMessage(Processing), EditStatus(Loading), GetFile, DownloadFile, EditStatus(Transcribing), RecognizeSpeech]

  /** The steps before the store when there is a transcript. */
  const BeforeStore: seq<Action> := Intake + [EditStatus(Enhancing), AskModel, EditStatus(Saving)]

  /** The steps the handler takes when no Telegram call raises. `heard` is the transcript,
      `reply` the model's answer, `saved` what storing returns; `now` is the handler's own
      reading of the clock. */
  function Plan(duration: int, heard: Option<string>, reply: Option<string>, saved: bool, now: Stamp): (r: seq<Action>)
    ensures |r| >= 2 && r[0] == SendMessage(Processing)
    ensures StoreRow in r <==> duration <= 300 && heard.Some?
  {
    assert StoreRow !in BeforeStore;
    if duration > 300 then [SendMessage(Processing), EditStatus(TooLong)]
    else
      match heard
      case None => Intake + [EditStatus(NotUnderstood)]
      case Some(t) => BeforeStore + [StoreRow, EditStatus(Report(saved, t, Enhance(t, reply), now))]
  }

  /** No Telegram call before position `k` of the plan raises. */
  predicate NoFaultBefore(plan: seq<Action>, fault: Option<nat>, k: nat) {
    !(fault.Some? && fault.value < k && fault.value < |plan| && MayRaise(plan[fault.value]))
  }

  /** What the error handler adds: the generic error message, unless sending it raises too. */
  function ErrorTail(errorReplyFails: bool): seq<Action> {
    if errorReplyFails then [] else [SendMessage(GenericError)]
  }

  /** The steps taken when the Telegram call at position `fault` of the plan raises: the steps
      before it, then the error handler. */
  function Run(plan: seq<Action>, fault: Option<nat>, errorReplyFails: bool): (r: seq<Action>)
    ensures |r| <= |plan|
    ensures r != plan ==> fault.Some? && fault.value < |plan| && MayRaise(plan[fault.value])
  {
    if NoFaultBefore(plan, fault, |plan|) then plan
    else plan[..fault.value] + ErrorTail(errorReplyFails)
  }

  /** Every step a run takes is the planned step at its position, except that the last one may
      be the generic error message. */
  lemma RunFollowsPlan(plan: seq<Action>, fault: Option<nat>, errorReplyFails: bool, i: nat)
    requires i < |Run(plan, fault, errorReplyFails)|
    ensures var r := Run(plan, fault, errorReplyFails);
      r[i] == plan[i] || (i == |r| - 1 && r[i] == SendMessage(GenericError))
  {
  }

  /** The plan step by step. */
  lemma PlanSteps(duration: int, heard: Option<string>, reply: Option<string>, saved: bool, now: Stamp)
    ensures var plan := Plan(duration, heard, reply, saved, now);
      && |plan| >= 2 && plan[0] == SendMessage(Processing)
      && (duration > 300 ==> |plan| == 2 && plan[1] == EditStatus(TooLong))
      && (duration <= 300 ==>
            && |plan| >= 7 && plan[..6] == Intake && plan[1] == EditStatus(Loading) && plan[2] == GetFile && plan[3] == DownloadFile
            && plan[4] == EditStatus(Transcribing) && plan[5] == RecognizeSpeech
            && (heard.None? ==> |plan| == 7 && plan[6] == EditStatus(NotUnderstood))
            && (heard.Some? ==>
                  && |plan| == 11 && plan[..9] == BeforeStore
                  && plan[6] == EditStatus(Enhancing) && plan[7] == AskModel
                  && plan[8] == EditStatus(Saving) && plan[9] == StoreRow
                  && plan[10] == EditStatus(Report(saved, heard.value, Enhance(heard.value, reply), now))))
  {
  }

  /** The handler gets as far as storing: the message is short enough, has a transcript, and
      no Telegram call before the store raises. */
  predicate ReachesStore(duration: int, heard: Option<string>, fault: Option<nat>) {
    duration <= 300 && heard.Some? && NoFaultBefore(BeforeStore, fault, |BeforeStore|)
  }

  /** Reaching the store, read off the plan. */
  lemma ReachesStoreInPlan(duration: int, heard: Option<string>, reply: Option<string>, saved: bool,
                           now: Stamp, fault: Option<nat>)
    ensures ReachesStore(duration, heard, fault)
      <==> duration <= 300 && heard.Some? && NoFaultBefore(Plan(duration, heard, reply, saved, now), fault, 9)
  {
    PlanSteps(duration, heard, reply, saved, now);
  }

  /** The store step shows in the steps taken exactly when the handler gets that far. */
  lemma StoreStepIffReached(duration: int, heard: Option<string>, reply: Option<string>, saved: bool,
                            now: Stamp, fault: Option<nat>, errorReplyFails: bool)
    ensures StoreRow in Run(Plan(duration, heard, reply, saved, now), fault, errorReplyFails)
      <==> ReachesStore(duration, heard, fault)
  {
    var plan := Plan(duration, heard, reply, saved, now);
    var log := Run(plan, fault, errorReplyFails);
    PlanSteps(duration, heard, reply, saved, now);
    if ReachesStore(duration, heard, fault) {
      assert log[9] == StoreRow;
    } else {
      assert forall i :: 0 <= i < |log| ==> log[i] != StoreRow;
    }
  }

  /** What storing returns shows only in the last step. */
  lemma PlanIgnoresSaveUntilReport(duration: int, heard: Option<string>, reply: Option<string>, now: Stamp,
                                   s1: bool, s2: bool)
    requires duration <= 300 && heard.Some?
    ensures var p1, p2 := Plan(duration, heard, reply, s1, now), Plan(duration, heard, reply, s2, now);
      && |p1| == |p2| == 11
      && (forall j :: 0 <= j < 10 ==> p1[j] == p2[j])
      && p1[..9] == p2[..9]
  {
  }

  /** A message longer than 300 seconds only gets the rejection: no download, recognition,
      rewrite or store happens, whichever call raises. */
  lemma LongMessageRejected(duration: int, heard: Option<string>, reply: Option<string>, saved: bool,
                            now: Stamp, fault: Option<nat>, errorReplyFails: bool)
    requires duration > 300
    ensures var log := Run(Plan(duration, heard, reply, saved, now), fault, errorReplyFails);
      forall i :: 0 <= i < |log| ==> log[i].SendMessage? || log[i].EditStatus?
    ensures fault.None? ==>
      Run(Plan(duration, heard, reply, saved, now), fault, errorReplyFails)
        == [SendMessage(Processing), EditStatus(TooLong)]
  {
  }

  /** Without a transcript the handler says it did not understand and neither asks the model
      nor stores anything. */
  lemma NoTranscriptStops(duration: int, heard: Option<string>, reply: Option<string>, saved: bool,
                          now: Stamp, fault: Option<nat>, errorReplyFails: bool)
    requires duration <= 300 && heard.None?
    ensures var log := Run(Plan(duration, heard, reply, saved, now), fault, errorReplyFails);
      AskModel !in log && StoreRow !in log
    ensures fault.None? ==>
      var log := Run(Plan(duration, heard, reply, saved, now), fault, errorReplyFails);
      log[|log| - 1] == EditStatus(NotUnderstood)
  {
    var log := Run(Plan(duration, heard, reply, saved, now), fault, errorReplyFails);
    assert forall i :: 0 <= i < |log| ==> log[i] != AskModel && log[i] != StoreRow;
  }

  /** Without a fault the handler asks the model, stores, and ends with the report of what
      storing returned (which `ReportText` and `ReportShowsBothTexts` describe). */
  lemma ReportFollowsSave(duration: int, heard: Option<string>, reply: Option<string>, saved: bool,
                          now: Stamp, errorReplyFails: bool)
    requires duration <= 300 && heard.Some?
    ensures var log := Run(Plan(duration, heard, reply, saved, now), None, errorReplyFails);
      && AskModel in log && StoreRow in log
      && log[|log| - 1] == EditStatus(Report(saved, heard.value, Enhance(heard.value, reply), now))
  {
    var plan := Plan(duration, heard, reply, saved, now);
    PlanSteps(duration, heard, reply, saved, now);
    assert Run(plan, None, errorReplyFails) == plan;
    assert plan[7] == AskModel && plan[9] == StoreRow;
  }

  /** When a Telegram call raises, no report is shown: what ran before it stays, and the
      generic error message follows unless sending it raises too. */
  lemma FaultGivesGenericReply(duration: int, heard: Option<string>, reply: Option<string>, saved: bool,
                               now: Stamp, k: nat, errorReplyFails: bool)
    requires k < |Plan(duration, heard, reply, saved, now)| && MayRaise(Plan(duration, heard, reply, saved, now)[k])
    ensures var plan := Plan(duration, heard, reply, saved, now);
      var log := Run(plan, Some(k), errorReplyFails);
      && |log| <= |plan|
      && log[..k] == plan[..k]
      && (forall i :: 0 <= i < |log| ==> !(log[i].EditStatus? && log[i].message.Report?))
      && (!errorReplyFails ==> log[|log| - 1] == SendMessage(GenericError))
  {
    var plan := Plan(duration, heard, reply, saved, now);
    var log := Run(plan, Some(k), errorReplyFails);
    PlanSteps(duration, heard, reply, saved, now);
    assert log == plan[..k] + ErrorTail(errorReplyFails);
    assert forall i :: 0 <= i < k ==> log[i] == plan[i];
    assert forall i :: 0 <= i < |plan| - 1 ==> !(plan[i].EditStatus? && plan[i].message.Report?);
  }

  // ---------------------------------------------------------------------------
  // The bot

  /** The rows of the first worksheet of the spreadsheet the credentials open, if there is one. */
  ghost function FirstSheetRows(sa: Attempt, oauth: Attempt): seq<seq<string>>
    reads SheetOf(sa), SheetOf(oauth)
  {
    if OpenedBy(sa, oauth).Some? && OpenedBy(sa, oauth).value.sheet1 != null
    then OpenedBy(sa, oauth).value.sheet1.rows else []
  }

  /** The rows the setup leaves in the worksheet it ends with: the first worksheet's earlier
      rows `firstRows`, or no rows for an added worksheet, after the header check. */
  function SetUpRows(s: Spreadsheet, firstRows: seq<seq<string>>): (r: seq<seq<string>>)
    ensures s.headerFails ==> r == (if s.sheet1 != null then firstRows else [])
    ensures !s.headerFails && s.sheet1 == null ==> r == [Headers]
  {
    HeaderChecked(if s.sheet1 != null then firstRows else [], s.headerFails)
  }

  class DiaryBot {
    const manager: SheetsManager
    var sheetsInitialized: bool
    /** How often the manager's `initialize` has been called. */
    ghost var initializeCalls: nat

    /** The latch: `initialize` has been called exactly when the bot counts as initialized, and
        before that the manager holds no worksheet. */
    ghost predicate Valid()
      reads this, manager
    {
      && initializeCalls == (if sheetsInitialized then 1 else 0)
      && (!sheetsInitialized ==> manager.worksheet == null)
    }

    constructor ()
      ensures Valid() && !sheetsInitialized && fresh(manager)
      ensures manager.client == None && manager.spreadsheet == None && manager.worksheet == null
    {
      manager := new SheetsManager();
      sheetsInitialized := false;
      initializeCalls := 0;
    }

    /** `_initialize_sheets`: calls the manager's `initialize` only while the bot is not yet
        initialized and latches its result, which is always success. */
    method InitializeSheets(sa: Attempt, oauth: Attempt)
      requires Valid()
      modifies this, manager, SheetOf(sa), SheetOf(oauth)
      ensures Valid() && sheetsInitialized && initializeCalls == 1
      ensures old(sheetsInitialized) ==> unchanged(manager) && unchanged(SheetOf(sa)) && unchanged(SheetOf(oauth))
      ensures !old(sheetsInitialized) ==> (manager.worksheet != null <==> SetsUpWorksheet(sa, oauth))
      ensures !old(sheetsInitialized) && SetsUpWorksheet(sa, oauth) ==>
        var s := OpenedBy(sa, oauth).value;
        && manager.worksheet != null
        && (if s.sheet1 != null then manager.worksheet == s.sheet1 else fresh(manager.worksheet))
        && manager.worksheet.rows == SetUpRows(s, old(FirstSheetRows(sa, oauth)))
      ensures manager.worksheet == null || manager.worksheet == old(manager.worksheet)
        || manager.worksheet in SheetOf(sa) + SheetOf(oauth) || fresh(manager.worksheet)
    {
      if !sheetsInitialized {
        var ok, tried := manager.Initialize(sa, oauth);
        initializeCalls := initializeCalls + 1;
        sheetsInitialized := ok;
      }
    }

    /** `_save_to_sheets` with the append the manager is evidently meant to offer: initializes
        the store if needed, builds the row from the timestamp and appends it; without a
        worksheet the append is simulated. `appendFails`: the service call raises. */
    method SaveToSheets(original: string, enhanced: string, now: Stamp, sa: Attempt, oauth: Attempt,
                        appendFails: bool)
      returns (success: bool)
      requires Valid()
      modifies this, manager, manager.worksheet, SheetOf(sa), SheetOf(oauth)
      ensures Valid() && sheetsInitialized
      ensures success == (manager.worksheet == null || !appendFails)
      ensures manager.worksheet != null && success ==>
        manager.worksheet.rows != [] && manager.worksheet.rows[|manager.worksheet.rows| - 1] == MemoryRow(now, original, enhanced)
      ensures old(sheetsInitialized) && old(manager.worksheet) != null ==>
        manager.worksheet == old(manager.worksheet)
        && manager.worksheet.rows == old(manager.worksheet.rows) + (if success then [MemoryRow(now, original, enhanced)] else [])
      ensures !old(sheetsInitialized) && SetsUpWorksheet(sa, oauth) ==>
        var s := OpenedBy(sa, oauth).value;
        && manager.worksheet != null
        && (if s.sheet1 != null then manager.worksheet == s.sheet1 else fresh(manager.worksheet))
        && manager.worksheet.rows == SetUpRows(s, old(FirstSheetRows(sa, oauth)))
                                     + (if success then [MemoryRow(now, original, enhanced)] else [])
    {
      InitializeSheets(sa, oauth);
      ghost var w := manager.worksheet;
      ghost var checked := if w != null then w.rows else [];
      var row := MemoryRow(now, original, enhanced);
      if manager.IsConnected() {
        success := manager.AppendRow(row, appendFails);
        assert w != null ==> w.rows == checked + if success then [row] else [];
      } else {
        // mock mode: success is simulated
        success := true;
      }
    }

    /** `_save_to_sheets` as written: the manager defines no `append_row`, so looking it up
        raises once the store is initialized, and the handler's `except` returns False. */
    method SaveToSheetsAsWritten(original: string, enhanced: string, now: Stamp, sa: Attempt, oauth: Attempt)
      returns (success: bool)
      requires Valid()
      modifies this, manager, SheetOf(sa), SheetOf(oauth)
      ensures Valid() && sheetsInitialized
      ensures !success
    {
      InitializeSheets(sa, oauth);
      var row := MemoryRow(now, original, enhanced);
      if manager.IsConnected() {
        // `self.sheets_manager.append_row` raises AttributeError
        success := false;
      } else {
        success := true;
      }
    }

    /** `handle_voice_message`: the steps taken, and what storing returned (false when it was
        not reached). `now` is the handler's clock reading, `saveTime` the one taken while
        storing; `fault` is the position of the Telegram call that raises, if any. Storing
        goes through the corrected `SaveToSheets`; with `SaveToSheetsAsWritten` every run that
        reaches the store would end in the report for `saved == false`. */
    method HandleVoiceMessage(duration: int, rec: Recognition, reply: Option<string>, now: Stamp,
                              saveTime: Stamp, sa: Attempt, oauth: Attempt, appendFails: bool,
                              fault: Option<nat>, errorReplyFails: bool)
      returns (log: seq<Action>, saved: bool)
      requires Valid()
      modifies this, manager, manager.worksheet, SheetOf(sa), SheetOf(oauth)
      ensures Valid()
      ensures log == Run(Plan(duration, Transcript(rec), reply, saved, now), fault, errorReplyFails)
      ensures ReachesStore(duration, Transcript(rec), fault) ==>
        sheetsInitialized && saved == (manager.worksheet == null || !appendFails)
      ensures ReachesStore(duration, Transcript(rec), fault) && saved && manager.worksheet != null ==>
        var rows := manager.worksheet.rows;
        rows != [] && rows[|rows| - 1] == MemoryRow(saveTime, Transcript(rec).value, Enhance(Transcript(rec).value, reply))
      ensures ReachesStore(duration, Transcript(rec), fault) && old(sheetsInitialized) && old(manager.worksheet) != null ==>
        manager.worksheet == old(manager.worksheet)
        && manager.worksheet.rows == old(manager.worksheet.rows)
             + (if saved then [MemoryRow(saveTime, Transcript(rec).value, Enhance(Transcript(rec).value, reply))] else [])
      ensures ReachesStore(duration, Transcript(rec), fault) && !old(sheetsInitialized) && SetsUpWorksheet(sa, oauth) ==>
        var s := OpenedBy(sa, oauth).value;
        && manager.worksheet != null
        && (if s.sheet1 != null then manager.worksheet == s.sheet1 else fresh(manager.worksheet))
        && manager.worksheet.rows == SetUpRows(s, old(FirstSheetRows(sa, oauth)))
             + (if saved then [MemoryRow(saveTime, Transcript(rec).value, Enhance(Transcript(rec).value, reply))] else [])
      ensures !ReachesStore(duration, Transcript(rec), fault) ==> !saved && sheetsInitialized == old(sheetsInitialized)
      ensures !ReachesStore(duration, Transcript(rec), fault) ==>
        unchanged(manager) && unchanged(SheetOf(sa)) && unchanged(SheetOf(oauth))
        && (manager.worksheet != null ==> unchanged(manager.worksheet))
    {
      var transcript, enhanced, stopped;
      log, transcript, enhanced, stopped := StepsBeforeStore(duration, rec, reply, now, fault, errorReplyFails);
      saved := false;
      if stopped { return; }
      assert FirstSheetRows(sa, oauth) == old(FirstSheetRows(sa, oauth));
      saved := SaveToSheets(transcript.value, enhanced, saveTime, sa, oauth, appendFails);
      ghost var w, rows := manager.worksheet, if manager.worksheet != null then manager.worksheet.rows else [];
      log := StepsAfterStore(duration, transcript, reply, now, saved, fault, errorReplyFails, log);
      assert manager.worksheet == w && (w != null ==> w.rows == rows);
    }
  }

  /** The steps of `handle_voice_message` before the store: the status messages, the download,
      the recognition and the rewrite. `stopped`: the handler ended before storing (the message
      is too long, there is no transcript, or a Telegram call raised). */
  method StepsBeforeStore(duration: int, rec: Recognition, reply: Option<string>, now: Stamp,
                          fault: Option<nat>, errorReplyFails: bool)
    returns (log: seq<Action>, transcript: Option<string>, enhanced: string, stopped: bool)
    ensures transcript == Transcript(rec)
    ensures stopped == !ReachesStore(duration, transcript, fault)
    ensures stopped ==> log == Run(Plan(duration, transcript, reply, false, now), fault, errorReplyFails)
    ensures !stopped ==>
      && transcript.Some? && enhanced == Enhance(transcript.value, reply)
      && log == BeforeStore && NoFaultBefore(Plan(duration, transcript, reply, false, now), fault, 9)
  {
    transcript := Transcript(rec);
    enhanced := "";
    ghost var plan := Plan(duration, transcript, reply, false, now);
    PlanSteps(duration, transcript, reply, false, now);
    ReachesStoreInPlan(duration, transcript, reply, false, now, fault);
    log, stopped := TakeIn(duration, fault, errorReplyFails, plan);
    if stopped { return; }
    stopped := true;
    var raised;
    if transcript.None? {
      log, raised := Perform(log, EditStatus(NotUnderstood), fault, errorReplyFails, plan, 6);
      return;
    }
    log, raised := Perform(log, EditStatus(Enhancing), fault, errorReplyFails, plan, 6);
    if raised { return; }
    enhanced := Enhance(transcript.value, reply);
    log, raised := Perform(log, AskModel, fault, errorReplyFails, plan, 7);
    log, raised := Perform(log, EditStatus(Saving), fault, errorReplyFails, plan, 8);
    if raised { return; }
    stopped := false;
  }

  /** The steps of `handle_voice_message` from the store on: the store itself and the report of
      its result `saved`, after the steps before the store ran without a fault. */
  method StepsAfterStore(duration: int, transcript: Option<string>, reply: Option<string>, now: Stamp,
                         saved: bool, fault: Option<nat>, errorReplyFails: bool, log: seq<Action>)
    returns (next: seq<Action>)
    requires ReachesStore(duration, transcript, fault) && log == BeforeStore
    requires NoFaultBefore(Plan(duration, transcript, reply, false, now), fault, 9)
    ensures next == Run(Plan(duration, transcript, reply, saved, now), fault, errorReplyFails)
  {
    PlanIgnoresSaveUntilReport(duration, transcript, reply, now, false, saved);
    ghost var plan := Plan(duration, transcript, reply, saved, now);
    PlanSteps(duration, transcript, reply, saved, now);
    var raised;
    next, raised := Perform(log, StoreRow, fault, errorReplyFails, plan, 9);
    next, raised := Perform(next, EditStatus(Report(saved, transcript.value, Enhance(transcript.value, reply), now)),
                            fault, errorReplyFails, plan, 10);
  }

  /** The handler's first steps, common to every voice message: the "processing" reply, the
      length check, the download and the recognition (positions 0 to 5 of the plan). */
  method TakeIn(duration: int, fault: Option<nat>, errorReplyFails: bool, ghost plan: seq<Action>)
    returns (log: seq<Action>, stopped: bool)
    requires |plan| >= 2 && plan[0] == SendMessage(Processing)
    requires duration > 300 ==> plan == [SendMessage(Processing), EditStatus(TooLong)]
    requires duration <= 300 ==> |plan| >= 7 && plan[..6] == Intake
    ensures stopped ==> log == Run(plan, fault, errorReplyFails) && (duration > 300 || !NoFaultBefore(plan, fault, 6))
    ensures !stopped ==> duration <= 300 && log == Intake && NoFaultBefore(plan, fault, 6)
  {
    stopped := true;
    var raised;
    log, raised := Perform([], SendMessage(Processing), fault, errorReplyFails, plan, 0);
    if raised { return; }
    if duration > 300 {
      log, raised := Perform(log, EditStatus(TooLong), fault, errorReplyFails, plan, 1);
      return;
    }
    assert plan[1] == EditStatus(Loading) && plan[2] == GetFile && plan[3] == DownloadFile;
    assert plan[4] == EditStatus(Transcribing) && plan[5] == RecognizeSpeech;
    log, raised := Perform(log, EditStatus(Loading), fault, errorReplyFails, plan, 1);
    if raised { return; }
    log, raised := Perform(log, GetFile, fault, errorReplyFails, plan, 2);
    if raised { return; }
    log, raised := Perform(log, DownloadFile, fault, errorReplyFails, plan, 3);
    if raised { return; }
    log, raised := Perform(log, EditStatus(Transcribing), fault, errorReplyFails, plan, 4);
    if raised { return; }
    log, raised := Perform(log, RecognizeSpeech, fault, errorReplyFails, plan, 5);
    stopped := false;
  }

  /** One step of the handler, at position `|log|` of the plan: a Telegram call at the fault
      position raises and the error handler runs instead; any other step is taken. */
  method Perform(log: seq<Action>, a: Action, fault: Option<nat>, errorReplyFails: bool,
                 ghost plan: seq<Action>, ghost k: nat)
    returns (next: seq<Action>, raised: bool)
    requires |log| == k < |plan| && log == plan[..k] && plan[k] == a && NoFaultBefore(plan, fault, k)
    ensures raised ==> fault == Some(k) && MayRaise(a) && next == Run(plan, fault, errorReplyFails)
    ensures !raised ==> |next| == k + 1 && next == plan[..k + 1] && NoFaultBefore(plan, fault, k + 1)
    ensures !raised && k + 1 == |plan| ==> next == Run(plan, fault, errorReplyFails)
  {
    raised := fault == Some(|log|) && MayRaise(a);
    next := if raised then log + ErrorTail(errorReplyFails) else log + [a];
    assert plan[..|log| + 1] == log + [a];
  }
}
