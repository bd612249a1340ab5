/** The capture sheet (components/feature/AddExpenseModal.tsx): a small state machine over the
    capture mode, the chat text, the loading flag and the voice recording, whose handlers send
    chat text, recorded audio or a picked photo to the parser and turn its result into a record
    for the store's `addExpense`.

    Device calls (permissions, recorder, file reads, image picker) and the parser's answer are
    parameters; each handler reports the parser call it made, the alert it showed, the record it
    handed to `addExpense` and whether it closed the sheet. */
module AddExpenseModal {
  import opened Js
  import opened Records
  import opened Ai

  datatype Mode = Select | ChatMode | VoiceMode | PhotoMode

  /** An `Audio.Recording` handle */
  datatype Recording = Recording(handle: nat)

  /** The arguments of `aiService.parseExpense` ("" for `undefined`) */
  datatype ParseRequest = ParseRequest(text: string, imageBase64: string, audioBase64: string)

  /** `showAlert(title, message)` */
  datatype Alert = Alert(title: string, message: Option<string>)

  /** What a handler did beside updating the sheet's state. */
  datatype Outcome = Outcome(
    request: Option<ParseRequest>, alert: Option<Alert>, added: Option<ExpenseDraft>, closed: bool)

  const Idle := Outcome(None, None, None, false)

  /** What asking for the microphone and starting a recording gave. */
  datatype StartResult = PermissionDenied | StartThrew(message: Option<string>) | Started(rec: Recording)

  /** What stopping the recording and reading the file as base64 gave. */
  datatype StopResult = StopThrew(message: Option<string>) | NoUri | AudioRead(audioBase64: string)

  /** What asking for the photo library and picking an image gave. A cancelled pick and a
      pick without base64 data (`''`) both leave the sheet alone. */
  datatype PickResult = PickDenied | PickThrew(message: Option<string>) | PickCanceled
                      | Picked(uri: string, base64: string)

  const PhotoPrefix := "data:image/jpeg;base64,"

  // ---------------------------------------------------------------------------------------
  // Record building

  /** `categories.find(c => c.name === name)?.id || null`: the id of the first category with
      exactly that name (case-sensitive), or none. */
  function CategoryIdFor(categories: seq<Category>, name: string): (r: Option<string>)
    ensures r.Some? ==> r.value != ""
    ensures r.Some? ==> exists i ::
      0 <= i < |categories| && categories[i].name == name && categories[i].id == r.value
      && forall j :: 0 <= j < i ==> categories[j].name != name
    ensures (forall i :: 0 <= i < |categories| ==> categories[i].name != name) ==> r.None?
    ensures forall i :: (0 <= i < |categories| && categories[i].name == name
                         && (forall j :: 0 <= j < i ==> categories[j].name != name)) ==>
      r == (if categories[i].id != "" then Some(categories[i].id) else None)
  {
    match FindIndex(categories, (c: Category) => c.name == name)
    case None => None
    case Some(k) => if categories[k].id != "" then Some(categories[k].id) else None
  }

  /** The record a successful parse becomes. */
  function BuildRecord(data: ParsedExpense, categories: seq<Category>, via: InputMethod,
                       photoUrl: Option<string>): ExpenseDraft
  {
    ExpenseDraft(data.amount, CategoryIdFor(categories, data.category), Some(data.description),
                 data.date, via, photoUrl)
  }

  /** The sheet's blank check (on the trimmed text) is at least as strict as the parser's
      (on the text itself), so chat text that passes it is never reported as missing input
      and reaches the model verbatim, surrounding whitespace included. */
  lemma ChatTextReachesModel(chatInput: string)
    ensures Trim(chatInput) != "" ==> SelectPayload(chatInput, "", "") == Some(Text(chatInput))
    ensures Trim(chatInput) != chatInput && Trim(chatInput) != "" ==>
      SelectPayload(chatInput, "", "") != Some(Text(Trim(chatInput)))
  {
  }

  /** The prefix the sheet adds to a photo is the one the parser strips, so the model gets
      exactly the picked base64 data. */
  lemma PhotoDataReachesModel(base64: string)
    ensures SelectPayload("", PhotoPrefix + base64, "") == Some(Image(base64))
  {
    assert IsMediaSubtype("jpeg");
    StripDataUrlRoundTrip("jpeg", base64);
    assert PhotoPrefix + base64 == DataUrlHead + "jpeg" + Base64Marker + base64;
  }

  // ---------------------------------------------------------------------------------------
  // The sheet

  class ExpenseSheet {
    var mode: Mode
    var chatInput: string
    var loading: bool
    var recording: Option<Recording>
    var isRecording: bool

    constructor (initialMode: Mode)
      ensures mode == initialMode && chatInput == "" && !loading && recording.None? && !isRecording
    {
      mode, chatInput, loading, recording, isRecording := initialMode, "", false, None, false;
    }

    /** The effect on `visible`: becoming visible resets the sheet. */
    method OnVisibility(visible: bool, initialMode: Mode)
      modifies this
      ensures visible ==>
        mode == initialMode && chatInput == "" && !loading && recording.None? && !isRecording
      ensures !visible ==>
        mode == old(mode) && chatInput == old(chatInput) && loading == old(loading)
        && recording == old(recording) && isRecording == old(isRecording)
    {
      if visible {
        mode, chatInput, loading, recording, isRecording := initialMode, "", false, None, false;
      }
    }

    /** The option and back buttons. */
    method SetMode(m: Mode)
      modifies this`mode
      ensures mode == m
    {
      mode := m;
    }

    /** The chat text box. */
    method SetChatInput(text: string)
      modifies this`chatInput
      ensures chatInput == text
    {
      chatInput := text;
    }

    /** `handleChatSubmit`, the parser having answered `response`. */
    method HandleChatSubmit(categories: seq<Category>, response: ParseResponse) returns (o: Outcome)
      modifies this`chatInput, this`loading, this`mode
      ensures Trim(old(chatInput)) == "" ==>
        o == Idle && chatInput == old(chatInput) && loading == old(loading) && mode == old(mode)
      ensures Trim(old(chatInput)) != "" ==>
        o.request == Some(ParseRequest(old(chatInput), "", "")) && !loading
      ensures Trim(old(chatInput)) != "" && Truthy(response.error) ==>
        o.alert == Some(Alert("Error", response.error)) && o.added.None? && !o.closed
        && chatInput == old(chatInput) && mode == old(mode)
      ensures Trim(old(chatInput)) != "" && !Truthy(response.error) && response.data.Some? ==>
        o.added == Some(BuildRecord(response.data.value, categories, Chat, None))
        && o.alert == Some(Alert("Success", Some("Expense added successfully"))) && o.closed
        && chatInput == "" && mode == Select
      ensures Trim(old(chatInput)) != "" && !Truthy(response.error) && response.data.None? ==>
        o.alert.None? && o.added.None? && !o.closed && chatInput == old(chatInput) && mode == old(mode)
    {
      if Trim(chatInput) == "" {
        return Idle;
      }
      loading := true;
      o := Outcome(Some(ParseRequest(chatInput, "", "")), None, None, false);
      if Truthy(response.error) {
        o := o.(alert := Some(Alert("Error", response.error)));
        loading := false;
        return;
      }
      if response.data.Some? {
        var record := BuildRecord(response.data.value, categories, Chat, None);
        o := o.(added := Some(record), alert := Some(Alert("Success", Some("Expense added successfully"))));
        chatInput := "";
        mode := Select;
        o := o.(closed := true);
      }
      loading := false;
    }

    /** `handleVoiceRecord`: stop and parse while recording, otherwise start a recording.
        `start` is what starting gave, `stop` what stopping and reading the file gave, and
        `response` the parser's answer to the audio. */
    method HandleVoiceRecord(categories: seq<Category>, start: StartResult, stop: StopResult,
                             response: ParseResponse) returns (o: Outcome)
      modifies this`loading, this`recording, this`isRecording, this`mode
      ensures chatInput == old(chatInput)
      // stopping
      ensures old(isRecording && recording.Some?) ==> !isRecording
      ensures old(isRecording && recording.Some?) && stop.StopThrew? ==>
        o == Outcome(None, Some(Alert("Error", stop.message)), None, false)
        && recording.None? && loading && mode == old(mode)
      ensures old(isRecording && recording.Some?) && stop.NoUri? ==>
        o == Idle && recording == old(recording) && loading && mode == old(mode)
      ensures old(isRecording && recording.Some?) && stop.AudioRead? ==>
        o.request == Some(ParseRequest("", "", stop.audioBase64)) && recording.None? && !loading
      ensures old(isRecording && recording.Some?) && stop.AudioRead? && Truthy(response.error) ==>
        o.alert == Some(Alert("Error", response.error)) && o.added.None? && !o.closed && mode == old(mode)
      ensures (old(isRecording && recording.Some?) && stop.AudioRead? && !Truthy(response.error)
        && response.data.Some?) ==>
        o.added == Some(BuildRecord(response.data.value, categories, Voice, None))
        && o.alert == Some(Alert("Success", Some("Expense added from voice"))) && o.closed && mode == Select
      ensures (old(isRecording && recording.Some?) && stop.AudioRead? && !Truthy(response.error)
        && response.data.None?) ==>
        o.alert.None? && o.added.None? && !o.closed && mode == old(mode)
      // starting
      ensures !old(isRecording && recording.Some?) ==>
        o.request.None? && o.added.None? && !o.closed && loading == old(loading) && mode == old(mode)
      ensures !old(isRecording && recording.Some?) && start.PermissionDenied? ==>
        o.alert == Some(Alert("Error", Some("Microphone permission required")))
        && recording == old(recording) && isRecording == old(isRecording)
      ensures !old(isRecording && recording.Some?) && start.StartThrew? ==>
        o.alert == Some(Alert("Error", start.message)) && recording.None? && !isRecording
      ensures !old(isRecording && recording.Some?) && start.Started? ==>
        o.alert.None? && recording == Some(start.rec) && isRecording
    {
      if isRecording && recording.Some? {
        isRecording := false;
        loading := true;
        match stop {
          case StopThrew(m) =>
            o := Outcome(None, Some(Alert("Error", m)), None, false);
            isRecording := false;
            recording := None;
          case NoUri =>
            o := Idle;
          case AudioRead(audioBase64) =>
            o := Outcome(Some(ParseRequest("", "", audioBase64)), None, None, false);
            if Truthy(response.error) {
              o := o.(alert := Some(Alert("Error", response.error)));
            } else if response.data.Some? {
              var record := BuildRecord(response.data.value, categories, Voice, None);
              o := o.(added := Some(record), alert := Some(Alert("Success", Some("Expense added from voice"))));
              mode := Select;
              o := o.(closed := true);
            }
            recording := None;
            loading := false;
        }
      } else {
        match start {
          case PermissionDenied =>
            o := Outcome(None, Some(Alert("Error", Some("Microphone permission required"))), None, false);
          case StartThrew(m) =>
            o := Outcome(None, Some(Alert("Error", m)), None, false);
            isRecording := false;
            recording := None;
          case Started(rec) =>
            o := Idle;
            recording := Some(rec);
            isRecording := true;
        }
      }
    }

    /** `handlePhotoScan`: `pick` is what the permission request and the picker gave, and
        `response` the parser's answer to the photo. */
    method HandlePhotoScan(categories: seq<Category>, pick: PickResult, response: ParseResponse)
      returns (o: Outcome)
      modifies this`loading, this`mode
      ensures chatInput == old(chatInput) && recording == old(recording) && isRecording == old(isRecording)
      ensures pick.PickDenied? ==>
        o == Outcome(None, Some(Alert("Error", Some("Camera roll permission required"))), None, false)
        && loading == old(loading) && mode == old(mode)
      ensures pick.PickThrew? ==>
        o == Outcome(None, Some(Alert("Error", pick.message)), None, false) && !loading && mode == old(mode)
      ensures pick.PickCanceled? || (pick.Picked? && pick.base64 == "") ==>
        o == Idle && loading == old(loading) && mode == old(mode)
      ensures pick.Picked? && pick.base64 != "" ==>
        o.request == Some(ParseRequest("", PhotoPrefix + pick.base64, "")) && !loading
      ensures pick.Picked? && pick.base64 != "" && Truthy(response.error) ==>
        o.alert == Some(Alert("Error", response.error)) && o.added.None? && !o.closed && mode == old(mode)
      ensures pick.Picked? && pick.base64 != "" && !Truthy(response.error) && response.data.Some? ==>
        o.added == Some(BuildRecord(response.data.value, categories, Photo, Some(pick.uri)))
        && o.alert == Some(Alert("Success", Some("Expense added from photo"))) && o.closed && mode == Select
      ensures pick.Picked? && pick.base64 != "" && !Truthy(response.error) && response.data.None? ==>
        o.alert.None? && o.added.None? && !o.closed && mode == old(mode)
    {
      match pick {
        case PickDenied =>
          o := Outcome(None, Some(Alert("Error", Some("Camera roll permission required"))), None, false);
        case PickThrew(m) =>
          o := Outcome(None, Some(Alert("Error", m)), None, false);
          loading := false;
        case PickCanceled =>
          o := Idle;
        case Picked(uri, base64) =>
          o := Idle;
          if base64 != "" {
            loading := true;
            var imageBase64 := PhotoPrefix + base64;
            o := o.(request := Some(ParseRequest("", imageBase64, "")));
            if Truthy(response.error) {
              o := o.(alert := Some(Alert("Error", response.error)));
              loading := false;
              return;
            }
            if response.data.Some? {
              var record := BuildRecord(response.data.value, categories, Photo, Some(uri));
              o := o.(added := Some(record), alert := Some(Alert("Success", Some("Expense added from photo"))));
              mode := Select;
              o := o.(closed := true);
            }
            loading := false;
          }
      }
    }
  }
}
