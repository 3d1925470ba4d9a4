/**
 * The transaction input window: form fields, the amount display, the three
 * autocomplete histories, the checks made before a new deal is sent, the
 * reset, and the choice of the selected period when the list arrives.
 * The component's state slots are the fields of `MainForm`; each handler is a
 * method that changes only the slots it sets.
 */
module MainWindow {
  import opened Wrappers
  import Text
  import NumberFormat
  import InputHistory
  import Periods
  import Deals
  import Files

  const StartupMessages: seq<string> := [
    "[起動] アプリケーションが開始されました",
    "[初期化] 設定を読み込みました",
    "[準備完了] 取引データの入力が可能です"
  ]
  const RequiredFieldsMessage: string := "入力エラー: 必須項目（取引日、金額、取引先）を入力してください"
  const SendingMessage: string := "APIサーバーに取引データを送信中..."
  const SubmitFailedMessage: string := "登録エラー: 取引データの登録に失敗しました"
  const ResetMessage: string := "フォームがリセットされました"
  const PeriodsMissingMessage: string := "期間データが取得できませんでした。APIサーバーの接続を確認してください。"
  const PeriodsErrorMessage: string := "期間データの読み込みでエラーが発生しました。APIサーバーの接続を確認してください。"

  function BeforeFromMessage(fromDate: string): string {
    "取引日は期間の開始日（" + fromDate + "）以降である必要があります"
  }

  function AfterToMessage(toDate: string): string {
    "取引日は期間の終了日（" + toDate + "）以前である必要があります"
  }

  function RegisteredMessage(dealId: string, displayAmount: string): string {
    "取引データを登録しました (ID: " + dealId + ", 金額: ¥" + displayAmount + ")"
  }

  function FileUploadedMessage(filePath: string): string {
    "ファイルも正常にアップロードされました: " + filePath
  }

  function PeriodsLoadedMessage(count: nat): string {
    NumberFormat.Decimal(count) + "個の期間を取得しました"
  }

  function PeriodsRestoredMessage(count: nat, saved: string): string {
    NumberFormat.Decimal(count) + "個の期間を取得しました（前回の期間: " + saved + "）"
  }

  function FilesProcessingMessage(count: nat): string {
    NumberFormat.Decimal(count) + "個のファイルを処理中..."
  }

  function FilesProcessedMessage(count: nat): string {
    NumberFormat.Decimal(count) + "個のファイルが処理されました"
  }

  /** A deal date lies in a period when it respects each set bound, both bounds inclusive. */
  predicate WithinPeriod(date: string, period: Periods.Period) {
    && (Periods.IsSetBound(period.fromDate) ==> period.fromDate == date || Text.LexLess(period.fromDate, date))
    && (Periods.IsSetBound(period.toDate) ==> date == period.toDate || Text.LexLess(date, period.toDate))
  }

  /**
   * The checks `handleSubmit` makes before sending: the message of the first
   * that fails, or `None` when the deal may be sent. The required fields come
   * first, then the start of the selected period, then its end.
   */
  function CheckNewDeal(dealDate: string, amount: string, partner: string,
                        periods: seq<Periods.Period>, selectedPeriod: string): (r: Option<string>)
    ensures dealDate == "" || amount == "" || partner == "" ==> r == Some(RequiredFieldsMessage)
    ensures dealDate != "" && amount != "" && partner != "" && Periods.Find(periods, selectedPeriod).None?
            ==> r.None?
    ensures dealDate != "" && amount != "" && partner != "" && Periods.Find(periods, selectedPeriod).Some?
            ==> var p := Periods.Find(periods, selectedPeriod).value;
                Periods.IsSetBound(p.fromDate) && Text.LexLess(dealDate, p.fromDate)
                ==> r == Some(BeforeFromMessage(p.fromDate))
    ensures dealDate != "" && amount != "" && partner != "" && Periods.Find(periods, selectedPeriod).Some?
            ==> var p := Periods.Find(periods, selectedPeriod).value;
                && (Periods.IsSetBound(p.fromDate) ==> !Text.LexLess(dealDate, p.fromDate))
                && Periods.IsSetBound(p.toDate) && Text.LexLess(p.toDate, dealDate)
                ==> r == Some(AfterToMessage(p.toDate))
  {
    if dealDate == "" || amount == "" || partner == "" then Some(RequiredFieldsMessage)
    else match Periods.Find(periods, selectedPeriod)
      case None => None
      case Some(p) =>
        if Periods.IsSetBound(p.fromDate) && Text.LexLess(dealDate, p.fromDate) then
          Some(BeforeFromMessage(p.fromDate))
        else if Periods.IsSetBound(p.toDate) && Text.LexLess(p.toDate, dealDate) then
          Some(AfterToMessage(p.toDate))
        else None
  }

  /**
   * A new deal passes the checks exactly when date, amount and partner are
   * filled in and the date lies in the selected period, if that period is listed.
   */
  lemma NewDealAccepted(dealDate: string, amount: string, partner: string,
                        periods: seq<Periods.Period>, selectedPeriod: string)
    ensures CheckNewDeal(dealDate, amount, partner, periods, selectedPeriod).None? <==>
      && dealDate != "" && amount != "" && partner != ""
      && (Periods.Find(periods, selectedPeriod).None?
          || WithinPeriod(dealDate, Periods.Find(periods, selectedPeriod).value))
  {
    match Periods.Find(periods, selectedPeriod)
    case None =>
    case Some(p) =>
      Text.LexTrichotomy(dealDate, p.fromDate);
      Text.LexTrichotomy(dealDate, p.toDate);
  }

  /** The deal record sent as `dealData`. */
  datatype NewDeal = NewDeal(
    period: string,
    dealType: string,
    dealDate: string,
    dealName: string,
    dealPartner: string,
    dealPrice: nat,
    dealRemark: string,
    recStatus: string)

  /** The `file` part sent beside the deal. */
  datatype FileInfo = FileInfo(path: string, name: string, fileType: string, size: int, hasFileObject: bool)

  /** The multipart `POST /v1/api/deals` request. */
  datatype NewDealRequest = NewDealRequest(dealData: NewDeal, file: Option<FileInfo>)

  /** What the server made of the request: it threw, or it answered with `success` and details. */
  datatype SubmitReply =
    | SubmitThrew
    | SubmitReplied(success: bool, dealId: string, filePath: string)

  /** The file information sent for the first dropped file, if any. */
  function FirstFileInfo(files: seq<Files.DroppedFile>): (r: Option<FileInfo>)
    ensures r.Some? <==> |files| > 0
    ensures r.Some? ==> r.value.name == files[0].name && r.value.path == files[0].path
    ensures r.Some? ==> r.value.fileType == files[0].fileType && r.value.size == files[0].size
                        && r.value.hasFileObject == files[0].hasFileObject
  {
    if |files| == 0 then None
    else
      var f := files[0];
      Some(FileInfo(f.path, f.name, f.fileType, f.size, f.hasFileObject))
  }

  /** The history `saveToHistory` leaves: unchanged for a blank value, else the value pushed in front. */
  function Saved(history: seq<string>, value: string): (r: seq<string>)
    ensures Text.IsBlank(value) ==> r == history
    ensures !Text.IsBlank(value) ==> 0 < |r| <= InputHistory.MaxEntries && r[0] == value
  {
    if Text.IsBlank(value) then history else InputHistory.Push(history, value)
  }

  /** The stored `inputHistory` object when nothing was stored yet. */
  const EmptyStore: map<InputHistory.Field, seq<string>> :=
    map[InputHistory.Partners := [], InputHistory.DealNames := [], InputHistory.Remarks := []]

  /** The stored `inputHistory` object after `saveToHistory` wrote one field of it. */
  function StoreAfterSave(store: Option<map<InputHistory.Field, seq<string>>>, field: InputHistory.Field,
                          history: seq<string>, value: string): (r: Option<map<InputHistory.Field, seq<string>>>)
    ensures Text.IsBlank(value) ==> r == store
    ensures !Text.IsBlank(value) ==> r.Some? && field in r.value && r.value[field] == Saved(history, value)
    ensures !Text.IsBlank(value) && store.Some? ==>
      forall f :: f != field ==> (f in r.value <==> f in store.value) && (f in store.value ==> r.value[f] == store.value[f])
    ensures !Text.IsBlank(value) && store.None? ==>
      r.value == EmptyStore[field := Saved(history, value)]
  {
    if Text.IsBlank(value) then store
    else
      var base := if store.Some? then store.value else EmptyStore;
      Some(base[field := InputHistory.Push(history, value)])
  }

  /**
   * The stored `inputHistory` object after a successful submission: partner,
   * then deal name, then remarks are each written in turn, every write starting
   * from what the previous one left, each with the history held before the submission.
   */
  function StoreAfterEntries(store: Option<map<InputHistory.Field, seq<string>>>,
                             partners: seq<string>, dealNames: seq<string>, remarksList: seq<string>,
                             partner: string, dealName: string, remarks: string): Option<map<InputHistory.Field, seq<string>>>
  {
    var afterPartner := StoreAfterSave(store, InputHistory.Partners, partners, partner);
    var afterDealName := StoreAfterSave(afterPartner, InputHistory.DealNames, dealNames, dealName);
    StoreAfterSave(afterDealName, InputHistory.Remarks, remarksList, remarks)
  }

  /**
   * When all three values are filled in, the stored object afterwards holds all
   * three updated histories; a blank entry leaves its stored list as it was.
   */
  lemma StoreHoldsEnteredValues(store: Option<map<InputHistory.Field, seq<string>>>,
                                partners: seq<string>, dealNames: seq<string>, remarksList: seq<string>,
                                partner: string, dealName: string, remarks: string)
    requires !Text.IsBlank(partner) && !Text.IsBlank(dealName)
    ensures var r := StoreAfterEntries(store, partners, dealNames, remarksList, partner, dealName, remarks);
      && r.Some?
      && InputHistory.Partners in r.value && r.value[InputHistory.Partners] == Saved(partners, partner)
      && InputHistory.DealNames in r.value && r.value[InputHistory.DealNames] == Saved(dealNames, dealName)
      && (!Text.IsBlank(remarks) ==>
            InputHistory.Remarks in r.value && r.value[InputHistory.Remarks] == Saved(remarksList, remarks))
      && (Text.IsBlank(remarks) && store.Some? ==>
            (InputHistory.Remarks in r.value <==> InputHistory.Remarks in store.value)
            && (InputHistory.Remarks in store.value ==>
                  r.value[InputHistory.Remarks] == store.value[InputHistory.Remarks]))
  {
    var afterPartner := StoreAfterSave(store, InputHistory.Partners, partners, partner);
    var afterDealName := StoreAfterSave(afterPartner, InputHistory.DealNames, dealNames, dealName);
    assert afterDealName.value[InputHistory.Partners] == Saved(partners, partner);
  }

  /** `getFileType`: the MIME type for a lower-case extension. */
  function MimeOf(ext: string): string {
    match ext
    case "jpg" => "image/jpeg"
    case "jpeg" => "image/jpeg"
    case "png" => "image/png"
    case "gif" => "image/gif"
    case "pdf" => "application/pdf"
    case "doc" => "application/msword"
    case "docx" => "application/msword"
    case "xls" => "application/vnd.ms-excel"
    case "xlsx" => "application/vnd.ms-excel"
    case "txt" => "text/plain"
    case "zip" => "application/zip"
    case _ => "application/octet-stream"
  }

  /** `getFileType(fileName)`: the MIME type of the lower-cased text after the last dot. */
  function GetFileType(fileName: string): string {
    MimeOf(Text.Lower(Files.Extension(fileName)))
  }

  lemma {:induction false} AfterLastLower(s: string)
    ensures Text.Lower(Text.AfterLast(s, '.')) == Text.AfterLast(Text.Lower(s), '.')
    decreases |s|
  {
    if |s| > 0 {
      assert Text.Lower(s)[..|s| - 1] == Text.Lower(s[..|s| - 1]);
      AfterLastLower(s[..|s| - 1]);
    }
  }

  /**
   * The type depends only on the extension after the last dot, in any letter
   * case: a name and its lower-case form get the same type.
   */
  lemma FileTypeByExtension(prefix: string, ext: string)
    requires '.' !in ext
    ensures GetFileType(prefix + "." + ext) == MimeOf(Text.Lower(ext))
    ensures GetFileType(prefix + "." + ext) == GetFileType(Text.Lower(prefix + "." + ext))
  {
    Text.AfterLastOfJoin(prefix, '.', ext);
    AfterLastLower(prefix + "." + ext);
    assert Text.Lower(Text.Lower(ext)) == Text.Lower(ext);
  }

  class MainForm {
    var selectedPeriod: string
    var periods: seq<Periods.Period>
    var dealDate: string
    var amount: string
    var displayAmount: string
    var partner: string
    var dealName: string
    var remarks: string
    var docType: string
    var droppedFiles: seq<Files.DroppedFile>
    var messages: seq<string>
    var partnerHistory: seq<string>
    var partnerSuggestions: seq<string>
    var showPartnerSuggestions: bool
    var dealNameHistory: seq<string>
    var dealNameSuggestions: seq<string>
    var showDealNameSuggestions: bool
    var remarksHistory: seq<string>
    var remarksSuggestions: seq<string>
    var showRemarksSuggestions: bool
    /** The `inputHistory` object of the settings store, `None` while nothing is stored. */
    var inputHistoryStore: Option<map<InputHistory.Field, seq<string>>>

    /** The stored amount is digits only and the display is always its formatted form. */
    ghost predicate Valid()
      reads this
    {
      NumberFormat.AllDigits(amount) && displayAmount == NumberFormat.FormatAmount(amount)
    }

    function History(field: InputHistory.Field): seq<string>
      reads this
    {
      match field
      case Partners => partnerHistory
      case DealNames => dealNameHistory
      case Remarks => remarksHistory
    }

    /** The state before the first render; the settings store is given. */
    constructor (store: Option<map<InputHistory.Field, seq<string>>>)
      ensures Valid()
      ensures selectedPeriod == "" && periods == []
      ensures dealDate == "" && amount == "" && displayAmount == "" && partner == ""
      ensures dealName == "" && remarks == "" && docType == Deals.DefaultDocType && droppedFiles == []
      ensures messages == StartupMessages
      ensures partnerHistory == [] && dealNameHistory == [] && remarksHistory == []
      ensures !showPartnerSuggestions && !showDealNameSuggestions && !showRemarksSuggestions
      ensures inputHistoryStore == store
    {
      selectedPeriod, periods := "", [];
      dealDate, amount, displayAmount, partner := "", "", "", "";
      dealName, remarks, docType, droppedFiles := "", "", Deals.DefaultDocType, [];
      messages := StartupMessages;
      partnerHistory, partnerSuggestions, showPartnerSuggestions := [], [], false;
      dealNameHistory, dealNameSuggestions, showDealNameSuggestions := [], [], false;
      remarksHistory, remarksSuggestions, showRemarksSuggestions := [], [], false;
      inputHistoryStore := store;
    }

    /**
     * `saveToHistory`: a blank value changes nothing; otherwise the field's
     * history gets the value in front, and the stored object gets that list
     * for that field, the other two histories untouched.
     */
    method SaveToHistory(field: InputHistory.Field, value: string)
      modifies this`partnerHistory, this`dealNameHistory, this`remarksHistory, this`inputHistoryStore
      ensures History(field) == Saved(old(History(field)), value)
      ensures forall f :: f != field ==> History(f) == old(History(f))
      ensures inputHistoryStore == StoreAfterSave(old(inputHistoryStore), field, old(History(field)), value)
    {
      if Text.IsBlank(value) {
        return;
      }
      var limited := InputHistory.Push(History(field), value);
      match field {
        case Partners => partnerHistory := limited;
        case DealNames => dealNameHistory := limited;
        case Remarks => remarksHistory := limited;
      }
      var allHistory := if inputHistoryStore.Some? then inputHistoryStore.value else EmptyStore;
      allHistory := allHistory[field := limited];
      inputHistoryStore := Some(allHistory);
    }

    /** `handleAmountChange`: keep the digits, display them grouped. */
    method HandleAmountChange(input: string)
      modifies this`amount, this`displayAmount
      ensures Valid()
      ensures amount == NumberFormat.DigitsOf(input)
      ensures displayAmount == NumberFormat.FormatAmount(input)
    {
      var numericValue := NumberFormat.DigitsOf(input);
      amount := numericValue;
      NumberFormat.DigitsOfDigits(numericValue);
      displayAmount := NumberFormat.FormatAmount(numericValue);
    }

    /** `handlePartnerChange`: suggestions are recomputed only for non-empty input; empty input hides them. */
    method HandlePartnerChange(input: string)
      modifies this`partner, this`partnerSuggestions, this`showPartnerSuggestions
      ensures partner == input
      ensures input != "" ==> partnerSuggestions == InputHistory.Suggestions(partnerHistory, input)
      ensures input == "" ==> partnerSuggestions == old(partnerSuggestions)
      ensures showPartnerSuggestions == InputHistory.ShowSuggestions(partnerHistory, input)
    {
      partner := input;
      if |input| > 0 {
        var suggestions := InputHistory.Suggestions(partnerHistory, input);
        partnerSuggestions := suggestions;
        showPartnerSuggestions := |suggestions| > 0;
      } else {
        showPartnerSuggestions := false;
      }
    }

    /** `handleDealNameChange`, the same rule over the deal-name history. */
    method HandleDealNameChange(input: string)
      modifies this`dealName, this`dealNameSuggestions, this`showDealNameSuggestions
      ensures dealName == input
      ensures input != "" ==> dealNameSuggestions == InputHistory.Suggestions(dealNameHistory, input)
      ensures input == "" ==> dealNameSuggestions == old(dealNameSuggestions)
      ensures showDealNameSuggestions == InputHistory.ShowSuggestions(dealNameHistory, input)
    {
      dealName := input;
      if |input| > 0 {
        var suggestions := InputHistory.Suggestions(dealNameHistory, input);
        dealNameSuggestions := suggestions;
        showDealNameSuggestions := |suggestions| > 0;
      } else {
        showDealNameSuggestions := false;
      }
    }

    /** `handleRemarksChange`, the same rule over the remarks history. */
    method HandleRemarksChange(input: string)
      modifies this`remarks, this`remarksSuggestions, this`showRemarksSuggestions
      ensures remarks == input
      ensures input != "" ==> remarksSuggestions == InputHistory.Suggestions(remarksHistory, input)
      ensures input == "" ==> remarksSuggestions == old(remarksSuggestions)
      ensures showRemarksSuggestions == InputHistory.ShowSuggestions(remarksHistory, input)
    {
      remarks := input;
      if |input| > 0 {
        var suggestions := InputHistory.Suggestions(remarksHistory, input);
        remarksSuggestions := suggestions;
        showRemarksSuggestions := |suggestions| > 0;
      } else {
        showRemarksSuggestions := false;
      }
    }

    /**
     * `handleDrop` once every file is processed: the processed list replaces
     * the dropped files, each of which keeps its File object whatever way it
     * was processed.
     */
    method HandleDrop(processed: seq<Files.DroppedFile>)
      modifies this`droppedFiles, this`messages
      ensures |droppedFiles| == |processed|
      ensures forall i :: 0 <= i < |processed| ==> droppedFiles[i] == processed[i].(hasFileObject := true)
      ensures forall f | f in droppedFiles :: f.hasFileObject
      ensures messages == old(messages) + [FilesProcessingMessage(|processed|), FilesProcessedMessage(|processed|)]
    {
      messages := messages + [FilesProcessingMessage(|processed|)];
      droppedFiles := seq(|processed|, i requires 0 <= i < |processed| => processed[i].(hasFileObject := true));
      messages := messages + [FilesProcessedMessage(|processed|)];
    }

    /** `handleReset`: every form field back to its start value; histories and period kept. */
    method HandleReset()
      modifies this`dealDate, this`amount, this`displayAmount, this`partner, this`dealName
      modifies this`remarks, this`docType, this`droppedFiles, this`messages
      ensures Valid()
      ensures dealDate == "" && amount == "" && displayAmount == "" && partner == ""
      ensures dealName == "" && remarks == "" && docType == Deals.DefaultDocType && droppedFiles == []
      ensures messages == old(messages) + [ResetMessage]
    {
      dealDate, amount, displayAmount, partner := "", "", "", "";
      dealName, remarks, docType, droppedFiles := "", "", Deals.DefaultDocType, [];
      messages := messages + [ResetMessage];
    }

    /**
     * `loadPeriods` with the server's reply and the period saved last time:
     * the saved period is selected when it is listed, else the first one; a
     * failed reply empties the list and the selection.
     */
    method LoadPeriods(reply: Periods.PeriodsReply, savedPeriod: string)
      modifies this`periods, this`selectedPeriod, this`messages
      ensures Periods.ListedPeriods(reply).Some? ==>
        var list := Periods.ListedPeriods(reply).value;
        && periods == list
        && (|list| > 0 ==> selectedPeriod == Periods.ChooseInitial(list, savedPeriod).value.name)
        && (|list| > 0 ==>
              messages == old(messages) + [if savedPeriod != "" && Periods.FindIndex(list, savedPeriod).Some?
                                           then PeriodsRestoredMessage(|list|, savedPeriod)
                                           else PeriodsLoadedMessage(|list|)])
        && (|list| == 0 ==> selectedPeriod == old(selectedPeriod) && messages == old(messages))
      ensures Periods.ListedPeriods(reply).None? ==>
        && periods == [] && selectedPeriod == ""
        && messages == old(messages) + [if reply.PeriodsThrew? then PeriodsErrorMessage else PeriodsMissingMessage]
    {
      var listed := Periods.ListedPeriods(reply);
      if listed.Some? {
        var list := listed.value;
        periods := list;
        var periodExists := savedPeriod != "" && Periods.FindIndex(list, savedPeriod).Some?;
        if periodExists {
          selectedPeriod := savedPeriod;
          messages := messages + [PeriodsRestoredMessage(|list|, savedPeriod)];
        } else if |list| > 0 {
          selectedPeriod := list[0].name;
          messages := messages + [PeriodsLoadedMessage(|list|)];
        }
      } else {
        messages := messages + [if reply.PeriodsThrew? then PeriodsErrorMessage else PeriodsMissingMessage];
        periods := [];
        selectedPeriod := "";
      }
    }

    /** The messages added when the server registered the deal. */
    method ReportRegistered(dealId: string, filePath: string)
      modifies this`messages
      ensures messages == old(messages) + [RegisteredMessage(dealId, displayAmount)]
                          + (if filePath != "" then [FileUploadedMessage(filePath)] else [])
    {
      messages := messages + [RegisteredMessage(dealId, displayAmount)];
      if filePath != "" {
        messages := messages + [FileUploadedMessage(filePath)];
      }
    }

    /** The three saves after a successful submission: partner, deal name, and remarks unless blank. */
    method SaveEnteredValues()
      modifies this`partnerHistory, this`dealNameHistory, this`remarksHistory, this`inputHistoryStore
      ensures partnerHistory == Saved(old(partnerHistory), partner)
      ensures dealNameHistory == Saved(old(dealNameHistory), dealName)
      ensures remarksHistory == Saved(old(remarksHistory), remarks)
      ensures inputHistoryStore == StoreAfterEntries(old(inputHistoryStore), old(partnerHistory),
                                                     old(dealNameHistory), old(remarksHistory),
                                                     partner, dealName, remarks)
    {
      SaveToHistory(InputHistory.Partners, partner);
      assert History(InputHistory.Remarks) == old(remarksHistory);
      SaveToHistory(InputHistory.DealNames, dealName);
      assert History(InputHistory.Remarks) == old(remarksHistory);
      assert History(InputHistory.Partners) == Saved(old(partnerHistory), partner);
      if !Text.IsBlank(remarks) {
        SaveToHistory(InputHistory.Remarks, remarks);
        assert History(InputHistory.Partners) == Saved(old(partnerHistory), partner);
        assert History(InputHistory.DealNames) == Saved(old(dealNameHistory), dealName);
      }
    }

    /** The request `handleSubmit` sends once the checks pass. */
    function Request(): NewDealRequest
      reads this`selectedPeriod, this`docType, this`dealDate, this`dealName, this`partner
      reads this`amount, this`remarks, this`droppedFiles
      requires NumberFormat.AllDigits(amount)
    {
      NewDealRequest(
        NewDeal(selectedPeriod, docType, dealDate, dealName, partner,
                NumberFormat.ParseDigits(amount), remarks, "NEW"),
        FirstFileInfo(droppedFiles))
    }

    /**
     * The part of `handleSubmit` after the checks: the request goes out, and
     * only on a successful reply are partner, deal name and (non-blank)
     * remarks saved to their histories.
     */
    method SendNewDeal(reply: SubmitReply) returns (request: NewDealRequest)
      requires NumberFormat.AllDigits(amount)
      modifies this`messages, this`partnerHistory, this`dealNameHistory, this`remarksHistory
      modifies this`inputHistoryStore
      ensures request == old(Request())
      ensures !(reply.SubmitReplied? && reply.success) ==>
        && partnerHistory == old(partnerHistory)
        && dealNameHistory == old(dealNameHistory)
        && remarksHistory == old(remarksHistory)
        && inputHistoryStore == old(inputHistoryStore)
        && messages == old(messages) + [SendingMessage, SubmitFailedMessage]
      ensures reply.SubmitReplied? && reply.success ==>
        && partnerHistory == Saved(old(partnerHistory), partner)
        && dealNameHistory == Saved(old(dealNameHistory), dealName)
        && remarksHistory == Saved(old(remarksHistory), remarks)
        && inputHistoryStore == StoreAfterEntries(old(inputHistoryStore), old(partnerHistory),
                                                  old(dealNameHistory), old(remarksHistory),
                                                  partner, dealName, remarks)
        && messages == old(messages) + [SendingMessage, RegisteredMessage(reply.dealId, displayAmount)]
                       + (if reply.filePath != "" then [FileUploadedMessage(reply.filePath)] else [])
    {
      request := Request();
      messages := messages + [SendingMessage];
      if reply.SubmitReplied? && reply.success {
        ReportRegistered(reply.dealId, reply.filePath);
        assert old(messages) + [SendingMessage] + [RegisteredMessage(reply.dealId, displayAmount)]
            == old(messages) + [SendingMessage, RegisteredMessage(reply.dealId, displayAmount)];
        SaveEnteredValues();
      } else {
        messages := messages + [SubmitFailedMessage];
      }
    }

    /**
     * `handleSubmit`: when a check fails its message is added, nothing is sent
     * and no history changes; otherwise the request of `SendNewDeal` goes out.
     */
    method HandleSubmit(reply: SubmitReply) returns (sent: Option<NewDealRequest>)
      requires Valid()
      modifies this`messages, this`partnerHistory, this`dealNameHistory, this`remarksHistory
      modifies this`inputHistoryStore
      ensures Valid()
      ensures var check := CheckNewDeal(dealDate, amount, partner, periods, selectedPeriod);
        && (check.Some? ==> sent.None? && messages == old(messages) + [check.value])
        && (check.None? ==> sent == Some(old(Request())))
      ensures CheckNewDeal(dealDate, amount, partner, periods, selectedPeriod).None? &&
              !(reply.SubmitReplied? && reply.success) ==>
        && partnerHistory == old(partnerHistory)
        && dealNameHistory == old(dealNameHistory)
        && remarksHistory == old(remarksHistory)
        && inputHistoryStore == old(inputHistoryStore)
        && messages == old(messages) + [SendingMessage, SubmitFailedMessage]
      ensures CheckNewDeal(dealDate, amount, partner, periods, selectedPeriod).None? &&
              reply.SubmitReplied? && reply.success ==>
        && partnerHistory == Saved(old(partnerHistory), partner)
        && dealNameHistory == Saved(old(dealNameHistory), dealName)
        && remarksHistory == Saved(old(remarksHistory), remarks)
        && inputHistoryStore == StoreAfterEntries(old(inputHistoryStore), old(partnerHistory),
                                                  old(dealNameHistory), old(remarksHistory),
                                                  partner, dealName, remarks)
        && messages == old(messages) + [SendingMessage, RegisteredMessage(reply.dealId, displayAmount)]
                       + (if reply.filePath != "" then [FileUploadedMessage(reply.filePath)] else [])
      ensures sent.None? ==>
        && partnerHistory == old(partnerHistory)
        && dealNameHistory == old(dealNameHistory)
        && remarksHistory == old(remarksHistory)
        && inputHistoryStore == old(inputHistoryStore)
    {
      var check := CheckNewDeal(dealDate, amount, partner, periods, selectedPeriod);
      if check.Some? {
        messages := messages + [check.value];
        return None;
      }
      var request := SendNewDeal(reply);
      sent := Some(request);
    }
  }
}
