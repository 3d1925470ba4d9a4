/**
 * The period maintenance window: a form to create or edit an accounting
 * period, its two guards, and the choice between inserting a new row and
 * updating the edited one. The component's state slots are the fields of
 * `PeriodWindow`; the database is reached through the writes it asks for.
 */
module DealPeriodForm {
  import opened Wrappers
  import Text

  /** A row of `deal_periods`; `id` is absent on rows that never came from the database. */
  datatype StoredPeriod = StoredPeriod(id: Option<int>, name: string, startDate: string, endDate: string)

  /** The three fields of the form. */
  datatype PeriodFields = PeriodFields(name: string, startDate: string, endDate: string)

  const EmptyFields: PeriodFields := PeriodFields("", "", "")

  const AllFieldsRequiredMessage: string := "すべての項目を入力してください。"
  const EndBeforeStartMessage: string := "終了日は開始日より後の日付を指定してください。"
  const SaveFailedMessage: string := "期間の保存に失敗しました。"
  const DeleteFailedMessage: string := "期間の削除に失敗しました。"

  /** The index of the '削除' button in the confirmation dialog. */
  const DeleteButton: int := 1

  /**
   * The guards of `handleSavePeriod`: every field filled, then a start date
   * not after the end date (JavaScript string order).
   */
  function CheckPeriod(fields: PeriodFields): (r: Option<string>)
    ensures fields.name == "" || fields.startDate == "" || fields.endDate == ""
            ==> r == Some(AllFieldsRequiredMessage)
    ensures (fields.name != "" && fields.startDate != "" && fields.endDate != ""
             && Text.LexLess(fields.endDate, fields.startDate)) ==> r == Some(EndBeforeStartMessage)
  {
    if fields.name == "" || fields.startDate == "" || fields.endDate == "" then Some(AllFieldsRequiredMessage)
    else if Text.LexLess(fields.endDate, fields.startDate) then Some(EndBeforeStartMessage)
    else None
  }

  /** A period is accepted exactly when all fields are filled and it starts on or before its end; one-day periods pass. */
  lemma PeriodAccepted(fields: PeriodFields)
    ensures CheckPeriod(fields).None? <==>
      && fields.name != "" && fields.startDate != "" && fields.endDate != ""
      && (fields.startDate == fields.endDate || Text.LexLess(fields.startDate, fields.endDate))
  {
    Text.LexTrichotomy(fields.startDate, fields.endDate);
  }

  /** A write the window asks the database for. */
  datatype DbWrite =
    | InsertPeriod(fields: PeriodFields)
    | UpdatePeriod(fields: PeriodFields, id: Option<int>)
    | DeletePeriod(id: Option<int>)

  /** The write a valid save asks for: an update of the edited row, or an insert when nothing is being edited. */
  function SaveWrite(editing: Option<StoredPeriod>, fields: PeriodFields): (r: DbWrite)
    ensures r.InsertPeriod? <==> editing.None?
    ensures !r.DeletePeriod? && r.fields == fields
    ensures r.UpdatePeriod? ==> r.id == editing.value.id
  {
    match editing
    case None => InsertPeriod(fields)
    case Some(p) => UpdatePeriod(fields, p.id)
  }

  /** The three form fields of a stored period. */
  function FieldsOf(p: StoredPeriod): (r: PeriodFields)
    ensures r.name == p.name && r.startDate == p.startDate && r.endDate == p.endDate
  {
    PeriodFields(p.name, p.startDate, p.endDate)
  }

  class PeriodWindow {
    var periods: seq<StoredPeriod>
    var showForm: bool
    var editingPeriod: Option<StoredPeriod>
    var formData: PeriodFields

    constructor ()
      ensures periods == [] && !showForm && editingPeriod.None? && formData == EmptyFields
    {
      periods, showForm, editingPeriod, formData := [], false, None, EmptyFields;
    }

    /** `loadPeriods`: the rows when the query succeeds (`Some`), the old list when it throws. */
    method LoadPeriods(rows: Option<seq<StoredPeriod>>)
      modifies this`periods
      ensures rows.Some? ==> periods == rows.value
      ensures rows.None? ==> periods == old(periods)
    {
      if rows.Some? {
        periods := rows.value;
      }
    }

    /** `handleNewPeriod`: nothing is being edited, the form is empty and shown. */
    method HandleNewPeriod()
      modifies this`editingPeriod, this`formData, this`showForm
      ensures editingPeriod.None? && formData == EmptyFields && showForm
    {
      editingPeriod := None;
      formData := PeriodFields("", "", "");
      showForm := true;
    }

    /** `handleEditPeriod`: the chosen period is remembered, its three fields fill the form, which is shown. */
    method HandleEditPeriod(period: StoredPeriod)
      modifies this`editingPeriod, this`formData, this`showForm
      ensures editingPeriod == Some(period)
      ensures formData == FieldsOf(period)
      ensures showForm
    {
      editingPeriod := Some(period);
      formData := PeriodFields(period.name, period.startDate, period.endDate);
      showForm := true;
    }

    /** The form as the user edits it. */
    method SetFormData(fields: PeriodFields)
      modifies this`formData
      ensures formData == fields
    {
      formData := fields;
    }

    /**
     * `handleSavePeriod`: a failing guard shows its warning and writes
     * nothing; otherwise the insert or update is asked for, and the form is
     * hidden when it succeeds (`writeFails` says whether the database threw).
     */
    method HandleSavePeriod(writeFails: bool) returns (write: Option<DbWrite>, message: Option<string>)
      modifies this`showForm
      ensures CheckPeriod(formData).Some? ==>
        write.None? && message == CheckPeriod(formData) && showForm == old(showForm)
      ensures CheckPeriod(formData).None? ==>
        && write == Some(SaveWrite(editingPeriod, formData))
        && (writeFails ==> message == Some(SaveFailedMessage) && showForm == old(showForm))
        && (!writeFails ==> message.None? && !showForm)
    {
      if formData.name == "" || formData.startDate == "" || formData.endDate == "" {
        return None, Some(AllFieldsRequiredMessage);
      }
      if Text.LexLess(formData.endDate, formData.startDate) {
        return None, Some(EndBeforeStartMessage);
      }
      if editingPeriod.Some? {
        write := Some(UpdatePeriod(formData, editingPeriod.value.id));
      } else {
        write := Some(InsertPeriod(formData));
      }
      if writeFails {
        message := Some(SaveFailedMessage);
      } else {
        showForm := false;
        message := None;
      }
    }

    /**
     * `handleDeletePeriod`: the row is deleted only when the dialog answers
     * with the delete button; `writeFails` says whether the database threw.
     */
    method HandleDeletePeriod(period: StoredPeriod, response: int, writeFails: bool)
      returns (write: Option<DbWrite>, message: Option<string>)
      ensures write.Some? <==> response == DeleteButton
      ensures write.Some? ==> write.value == DeletePeriod(period.id)
      ensures message.Some? <==> response == DeleteButton && writeFails
      ensures message.Some? ==> message.value == DeleteFailedMessage
    {
      write, message := None, None;
      if response == 1 {
        write := Some(DeletePeriod(period.id));
        if writeFails {
          message := Some(DeleteFailedMessage);
        }
      }
    }
  }
}
