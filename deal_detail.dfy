/**
 * The update window of one deal: the form is filled from the deal the search
 * window opened, only the current version may be updated, the checks run in
 * a fixed order, and the `PUT` body carries the edited fields and, when a new
 * file was dropped, the file under a name built from date, partner and amount.
 * The component's state slots are the fields of `DetailForm`.
 */
module DealDetail {
  import opened Wrappers
  import Text
  import NumberFormat
  import Periods
  import Deals
  import Files

  const PastVersionNotice: string := "⚠ これは過去のバージョンです。更新はできません。"
  const NoDealMessage: string := "エラー: 取引データが見つかりません"
  const PastVersionMessage: string := "エラー: 過去のバージョンは更新できません"
  const DateRequiredMessage: string := "取引日を入力してください"
  const AmountRequiredMessage: string := "金額を入力してください"
  const PartnerRequiredMessage: string := "取引先を入力してください"
  const DealNameRequiredMessage: string := "取引名を入力してください"
  const UpdatedMessage: string := "更新が完了しました"
  const UnknownErrorText: string := "不明なエラー"
  const PreviewLoadedMessage: string := "既存ファイルのプレビューを読み込みました"
  const PreviewFailedMessage: string := "プレビューの読み込みに失敗しました"
  const DefaultFileName: string := "ファイル"

  function UpdateFailedMessage(detail: string): string {
    "更新に失敗しました: " + detail
  }

  /** Only the current version of a deal, the one with status NEW, may be updated. */
  predicate IsUpdatable(deal: Deals.Deal) {
    deal.recStatus == Deals.StatusNew
  }

  /** `!amount || parseInt(amount) <= 0`; a `NaN` parse compares false and is not refused. */
  predicate AmountRefused(amount: string) {
    amount == "" || (NumberFormat.ParseInt(amount).Some? && NumberFormat.ParseInt(amount).value <= 0)
  }

  /**
   * The guards of `handleUpdate`, in their order: the message of the first
   * that fails, or `None` when the update may be sent.
   */
  function CheckUpdate(hasDeal: bool, latest: bool, dealDate: string, amount: string,
                       partner: string, dealName: string): (r: Option<string>)
    ensures r.None? <==>
      hasDeal && latest && dealDate != "" && !AmountRefused(amount) && partner != "" && dealName != ""
    ensures !hasDeal ==> r == Some(NoDealMessage)
    ensures hasDeal && !latest ==> r == Some(PastVersionMessage)
    ensures hasDeal && latest && dealDate == "" ==> r == Some(DateRequiredMessage)
    ensures hasDeal && latest && dealDate != "" && AmountRefused(amount) ==> r == Some(AmountRequiredMessage)
    ensures hasDeal && latest && dealDate != "" && !AmountRefused(amount) && partner == ""
            ==> r == Some(PartnerRequiredMessage)
    ensures hasDeal && latest && dealDate != "" && !AmountRefused(amount) && partner != "" && dealName == ""
            ==> r == Some(DealNameRequiredMessage)
  {
    if !hasDeal then Some(NoDealMessage)
    else if !latest then Some(PastVersionMessage)
    else if dealDate == "" then Some(DateRequiredMessage)
    else if AmountRefused(amount) then Some(AmountRequiredMessage)
    else if partner == "" then Some(PartnerRequiredMessage)
    else if dealName == "" then Some(DealNameRequiredMessage)
    else None
  }

  /** An amount made of digits that passes the checks is a positive number. */
  lemma AcceptedAmountIsPositive(amount: string)
    requires NumberFormat.AllDigits(amount) && !AmountRefused(amount)
    ensures NumberFormat.ParseInt(amount) == Some(NumberFormat.ParseDigits(amount) as int)
    ensures NumberFormat.ParseDigits(amount) > 0
  {
    NumberFormat.ParseIntOfDigits(amount);
  }

  /** The amount shown for a deal's stored price agrees with what typing that price shows. */
  lemma OpenedAmountDisplay(price: int)
    requires price >= 0
    ensures NumberFormat.Localized(price) == NumberFormat.FormatAmount(NumberFormat.IntToString(price))
  {
    var s := NumberFormat.Decimal(price);
    NumberFormat.DigitsOfDigits(s);
    NumberFormat.ParseDecimal(price);
  }

  /** The upload name `${dealDate}_${partner}_${amount}.${extension}`. */
  function UploadFileName(dealDate: string, partner: string, amount: string, fileName: string): string {
    dealDate + "_" + partner + "_" + amount + "." + Files.Extension(fileName)
  }

  /** The upload name keeps the dropped file's extension. */
  lemma UploadNameKeepsExtension(dealDate: string, partner: string, amount: string, fileName: string)
    ensures Files.Extension(UploadFileName(dealDate, partner, amount, fileName)) == Files.Extension(fileName)
  {
    var ext := Files.Extension(fileName);
    Text.AfterLastIsLastSegment(fileName, '.');
    Text.AfterLastOfJoin(dealDate + "_" + partner + "_" + amount, '.', ext);
  }

  /** Which of the three texts `formatFileSize` produces; the figures themselves are floating point. */
  datatype SizeUnit = SizeUnknown | Kilobytes | Megabytes

  /** `formatFileSize`: 0 is unknown, below one mebibyte in kilobytes, otherwise in megabytes. */
  function FileSizeUnit(bytes: int): (r: SizeUnit)
    ensures r == SizeUnknown <==> bytes == 0
    ensures r == Kilobytes <==> bytes != 0 && bytes < 1024 * 1024
    ensures r == Megabytes <==> bytes >= 1024 * 1024
  {
    if bytes == 0 then SizeUnknown
    else if bytes < 1024 * 1024 then Kilobytes
    else Megabytes
  }

  function UnitRank(u: SizeUnit): nat {
    match u
    case SizeUnknown => 0
    case Kilobytes => 1
    case Megabytes => 2
  }

  /** A larger positive size never shows in a smaller unit. */
  lemma FileSizeUnitMonotone(a: int, b: int)
    requires 0 < a <= b
    ensures UnitRank(FileSizeUnit(a)) <= UnitRank(FileSizeUnit(b))
  {
  }

  /** The `fileData` part of an update: the upload name travels as `path`; the Base64 content is not modelled. */
  datatype FileData = FileData(name: string, path: string, size: int)

  /** The `dealData` part of an update; `dealPrice` is `parseInt(amount)`, `None` standing for `NaN`. */
  datatype DealUpdate = DealUpdate(
    dealType: string,
    dealDate: string,
    dealName: string,
    dealPartner: string,
    dealPrice: Option<int>,
    dealRemark: string,
    recStatus: string)

  /** The body of `PUT /v1/api/deals/<NO>`. */
  datatype UpdateBody = UpdateBody(period: string, dealData: DealUpdate, fileData: Option<FileData>)

  /** A request the window sends. */
  datatype UpdateCall = UpdateCall(endpoint: string, body: UpdateBody)

  function DealEndpoint(no: string): string {
    "/v1/api/deals/" + no
  }

  /** What the `PUT` gave back: it threw with a message, or answered with `success` and texts ('' when absent). */
  datatype UpdateReply =
    | UpdateThrew(error: string)
    | UpdateReplied(success: bool, message: string, error: string)

  /**
   * The message after the request: success, or the failure with the server's
   * message, else its error, else a stock text.
   */
  function UpdateOutcome(reply: UpdateReply): (r: string)
    ensures reply.UpdateReplied? && reply.success <==> r == UpdatedMessage
    ensures reply.UpdateReplied? && !reply.success && reply.message != ""
            ==> r == UpdateFailedMessage(reply.message)
    ensures reply.UpdateReplied? && !reply.success && reply.message == "" && reply.error != ""
            ==> r == UpdateFailedMessage(reply.error)
    ensures reply.UpdateReplied? && !reply.success && reply.message == "" && reply.error == ""
            ==> r == UpdateFailedMessage(UnknownErrorText)
    ensures reply.UpdateThrew? ==> r == UpdateFailedMessage(reply.error)
  {
    match reply
    case UpdateThrew(error) => UpdateFailedMessage(error)
    case UpdateReplied(success, message, error) =>
      if success then UpdatedMessage
      else if message != "" then UpdateFailedMessage(message)
      else if error != "" then UpdateFailedMessage(error)
      else UpdateFailedMessage(UnknownErrorText)
  }

  /** The last file whose processing succeeded, if any. */
  function LastProcessed(files: seq<Option<Files.DroppedFile>>): (r: Option<Files.DroppedFile>)
    ensures r.None? <==> forall i :: 0 <= i < |files| ==> files[i].None?
    ensures r.Some? ==> exists i :: 0 <= i < |files| && files[i] == r
                          && forall j :: i < j < |files| ==> files[j].None?
  {
    if |files| == 0 then None
    else if files[|files| - 1].Some? then files[|files| - 1]
    else LastProcessed(files[..|files| - 1])
  }

  /** The answer to `GET /v1/api/preview-link` for the deal's stored file. */
  datatype PreviewReply =
    | PreviewThrew
    | PreviewReplied(success: bool, url: string, size: int, fileType: string)

  class DetailForm {
    var originalDeal: Option<Deals.Deal>
    var isLatestVersion: bool
    var periods: seq<Periods.Period>
    var selectedPeriod: string
    var dealDate: string
    var docType: string
    var amount: string
    var displayAmount: string
    var partner: string
    var dealName: string
    var remarks: string
    var dragOver: bool
    var droppedFiles: seq<Files.DroppedFile>
    var isNewFile: bool
    var message: string

    /** The state before the deal arrives. */
    constructor ()
      ensures originalDeal.None? && isLatestVersion && periods == [] && selectedPeriod == ""
      ensures dealDate == "" && docType == "" && amount == "" && displayAmount == ""
      ensures partner == "" && dealName == "" && remarks == ""
      ensures !dragOver && droppedFiles == [] && !isNewFile && message == ""
    {
      originalDeal, isLatestVersion, periods, selectedPeriod := None, true, [], "";
      dealDate, docType, amount, displayAmount := "", "", "", "";
      partner, dealName, remarks := "", "", "";
      dragOver, droppedFiles, isNewFile, message := false, [], false, "";
    }

    /**
     * The deal handed over by the search window (`None` when there is none or
     * it does not parse) and its period ('' when absent) fill the form. Only a
     * deal with status NEW may be updated; any other shows the past-version notice.
     */
    method Open(deal: Option<Deals.Deal>, period: string)
      modifies this`originalDeal, this`isLatestVersion, this`dealDate, this`docType, this`amount
      modifies this`displayAmount, this`partner, this`dealName, this`remarks, this`selectedPeriod
      modifies this`message
      ensures deal.None? ==> unchanged(this)
      ensures deal.Some? ==>
        var d := deal.value;
        && originalDeal == deal
        && isLatestVersion == IsUpdatable(d)
        && dealDate == d.dealDate
        && docType == (if d.dealType == "" then Deals.DefaultDocType else d.dealType)
        && amount == NumberFormat.IntToString(d.dealPrice)
        && displayAmount == NumberFormat.Localized(d.dealPrice)
        && partner == d.dealPartner && dealName == d.dealName && remarks == d.dealRemark
        && selectedPeriod == (if period != "" then period else old(selectedPeriod))
        && message == (if IsUpdatable(d) then old(message) else PastVersionNotice)
    {
      if deal.None? {
        return;
      }
      var dealData := deal.value;
      var latest := IsUpdatable(dealData);
      originalDeal, isLatestVersion := deal, latest;
      dealDate, partner, dealName, remarks :=
        dealData.dealDate, dealData.dealPartner, dealData.dealName, dealData.dealRemark;
      docType := if dealData.dealType != "" then dealData.dealType else Deals.DefaultDocType;
      amount, displayAmount := NumberFormat.IntToString(dealData.dealPrice), NumberFormat.Localized(dealData.dealPrice);
      if period != "" {
        selectedPeriod := period;
      }
      if !latest {
        message := PastVersionNotice;
      }
    }

    /** `loadPeriods`: the list is taken when the call succeeds and kept otherwise; the selection is not touched. */
    method LoadPeriods(reply: Periods.PeriodsReply)
      modifies this`periods
      ensures Periods.ListedPeriods(reply).Some? ==> periods == Periods.ListedPeriods(reply).value
      ensures Periods.ListedPeriods(reply).None? ==> periods == old(periods)
    {
      var listed := Periods.ListedPeriods(reply);
      if listed.Some? {
        periods := listed.value;
      }
    }

    /**
     * `loadExistingFilePreview`: a successful answer with a link shows the
     * stored file as the one file of the form, not a new one.
     */
    method LoadExistingFilePreview(reply: PreviewReply)
      modifies this`droppedFiles, this`isNewFile, this`message
      ensures originalDeal.Some? && reply.PreviewReplied? && reply.success && reply.url != "" ==>
        var stored := originalDeal.value.filePath;
        && droppedFiles == [Files.DroppedFile(
             if stored != "" then stored else DefaultFileName, stored,
             reply.size, reply.fileType, Some(reply.url), false)]
        && !isNewFile && message == PreviewLoadedMessage
      ensures originalDeal.Some? && reply.PreviewThrew? ==>
        droppedFiles == old(droppedFiles) && isNewFile == old(isNewFile) && message == PreviewFailedMessage
      ensures originalDeal.None? || (reply.PreviewReplied? && !(reply.success && reply.url != "")) ==>
        droppedFiles == old(droppedFiles) && isNewFile == old(isNewFile) && message == old(message)
    {
      if originalDeal.None? {
        return;
      }
      match reply
      case PreviewThrew =>
        message := PreviewFailedMessage;
      case PreviewReplied(success, url, size, fileType) =>
        if success && url != "" {
          var stored := originalDeal.value.filePath;
          droppedFiles := [Files.DroppedFile(
            if stored != "" then stored else DefaultFileName, stored, size, fileType, Some(url), false)];
          isNewFile := false;
          message := PreviewLoadedMessage;
        }
    }

    /** `handleAmountChange`: only the digits are kept, and shown grouped ('' when none). */
    method HandleAmountChange(input: string)
      modifies this`amount, this`displayAmount
      ensures amount == NumberFormat.DigitsOf(input)
      ensures NumberFormat.AllDigits(amount)
      ensures displayAmount == NumberFormat.FormatAmount(input)
    {
      var value := NumberFormat.DigitsOf(input);
      amount := value;
      NumberFormat.DigitsOfDigits(value);
      if value != "" {
        displayAmount := NumberFormat.Grouped(NumberFormat.ParseDigits(value));
      } else {
        displayAmount := "";
      }
    }

    /**
     * `handleDrop`: each file whose processing succeeds replaces the list,
     * so the last one stays as the only file and is marked new; files whose
     * processing threw (`None`) change nothing.
     */
    method HandleDrop(files: seq<Option<Files.DroppedFile>>)
      modifies this`dragOver, this`droppedFiles, this`isNewFile
      ensures !dragOver
      ensures LastProcessed(files).Some? ==>
        droppedFiles == [LastProcessed(files).value.(hasFileObject := true)] && isNewFile
      ensures LastProcessed(files).Some? ==> AttachesFile()
      ensures LastProcessed(files).None? ==>
        droppedFiles == old(droppedFiles) && isNewFile == old(isNewFile)
    {
      dragOver := false;
      for i := 0 to |files|
        invariant !dragOver
        invariant LastProcessed(files[..i]).Some? ==>
          droppedFiles == [LastProcessed(files[..i]).value.(hasFileObject := true)] && isNewFile
        invariant LastProcessed(files[..i]).None? ==>
          droppedFiles == old(droppedFiles) && isNewFile == old(isNewFile)
      {
        assert files[..i + 1][..i] == files[..i];
        if files[i].Some? {
          droppedFiles := [files[i].value.(hasFileObject := true)];
          isNewFile := true;
        }
      }
      assert files[..|files|] == files;
    }

    /** `handleRemoveFile`: the list is emptied; whether the file was new is left as it was. */
    method HandleRemoveFile()
      modifies this`droppedFiles
      ensures droppedFiles == []
    {
      droppedFiles := [];
    }

    /** Whether the update carries a file: a new file was dropped and it came with its `File` object. */
    predicate AttachesFile()
      reads this`isNewFile, this`droppedFiles
    {
      isNewFile && |droppedFiles| > 0 && droppedFiles[0].hasFileObject
    }

    /**
     * `body` is the update of the form: the edited fields with status
     * UPDATE and the selected period, and the dropped file under its upload
     * name exactly when one is attached.
     */
    predicate IsUpdateBody(body: UpdateBody)
      reads this
    {
      && body.period == selectedPeriod
      && body.dealData == DealUpdate(docType, dealDate, dealName, partner,
                                     NumberFormat.ParseInt(amount), remarks, Deals.StatusUpdate)
      && (body.fileData.Some? <==> AttachesFile())
      && (body.fileData.Some? ==>
            body.fileData.value == FileData(droppedFiles[0].name,
                                            UploadFileName(dealDate, partner, amount, droppedFiles[0].name),
                                            droppedFiles[0].size))
    }

    /** The request body of `handleUpdate`, with `fileData` attached afterwards when a new file is present. */
    method BuildRequestBody() returns (body: UpdateBody)
      ensures IsUpdateBody(body)
      ensures body.dealData.recStatus == Deals.StatusUpdate
      ensures body.fileData.Some? ==>
        Files.Extension(body.fileData.value.path) == Files.Extension(droppedFiles[0].name)
    {
      body := UpdateBody(selectedPeriod,
                         DealUpdate(docType, dealDate, dealName, partner,
                                    NumberFormat.ParseInt(amount), remarks, Deals.StatusUpdate),
                         None);
      if isNewFile && |droppedFiles| > 0 && droppedFiles[0].hasFileObject {
        var file := droppedFiles[0];
        var extension := Files.Extension(file.name);
        var apiFileName := dealDate + "_" + partner + "_" + amount + "." + extension;
        UploadNameKeepsExtension(dealDate, partner, amount, file.name);
        body := body.(fileData := Some(FileData(file.name, apiFileName, file.size)));
      }
    }

    /**
     * `handleUpdate`: the first failing guard sets its message and nothing is
     * sent; otherwise the update is sent to the deal's endpoint and the reply
     * decides the message and whether the other windows are told.
     */
    method HandleUpdate(reply: UpdateReply) returns (sent: Option<UpdateCall>, notified: bool)
      modifies this`message
      ensures var check := CheckUpdate(originalDeal.Some?, isLatestVersion, dealDate, amount, partner, dealName);
        && (check.Some? ==> sent.None? && !notified && message == check.value)
        && (check.None? ==>
              && sent.Some?
              && sent.value.endpoint == DealEndpoint(originalDeal.value.no)
              && IsUpdateBody(sent.value.body)
              && message == UpdateOutcome(reply)
              && (notified <==> reply.UpdateReplied? && reply.success))
    {
      var check := CheckUpdate(originalDeal.Some?, isLatestVersion, dealDate, amount, partner, dealName);
      if check.Some? {
        message := check.value;
        return None, false;
      }
      var body := BuildRequestBody();
      sent := Some(UpdateCall(DealEndpoint(originalDeal.value.no), body));
      message := UpdateOutcome(reply);
      notified := reply.UpdateReplied? && reply.success;
    }
  }
}
