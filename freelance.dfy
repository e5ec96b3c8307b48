/**
 * The admin manager for freelance updates: the dialog's form state and the
 * edit/create/submit steps over it, the active/inactive toggle, and how the
 * priority box turns its text into a number with `parseInt(value) || 1`.
 */
module FreelanceUpdates {
  import opened Text

  datatype UpdateType = ProjectUpdate | Achievement | Milestone | Announcement
  datatype UpdateStatus = Active | Inactive

  /** A stored update; the database timestamps are not modelled. */
  datatype FreelanceUpdate = FreelanceUpdate(
    id: string,
    title: string,
    description: string,
    kind: UpdateType,
    status: UpdateStatus,
    priority: int)

  datatype UpdateForm = UpdateForm(
    title: string,
    description: string,
    kind: UpdateType,
    status: UpdateStatus,
    priority: int)

  const EmptyForm: UpdateForm := UpdateForm("", "", ProjectUpdate, Active, 1)

  /** The form filled from a stored update, as `handleEdit` does. */
  function FormOf(u: FreelanceUpdate): UpdateForm {
    UpdateForm(u.title, u.description, u.kind, u.status, u.priority)
  }

  // ---- parseInt ----

  /** The value of a digit character in bases up to 36. */
  function DigitValue(c: char): Option<nat> {
    if '0' <= c <= '9' then Some(c as nat - '0' as nat)
    else if 'a' <= c <= 'z' then Some(c as nat - 'a' as nat + 10)
    else if 'A' <= c <= 'Z' then Some(c as nat - 'A' as nat + 10)
    else None
  }

  predicate IsDigitIn(c: char, radix: nat) {
    DigitValue(c).Some? && DigitValue(c).value < radix
  }

  /** The values of the longest prefix of digits of the given base. */
  function LeadingDigits(s: string, radix: nat): (r: seq<nat>)
    ensures |r| <= |s|
    ensures forall k :: 0 <= k < |r| ==> IsDigitIn(s[k], radix) && r[k] == DigitValue(s[k]).value
    ensures |r| < |s| ==> !IsDigitIn(s[|r|], radix)
  {
    if |s| == 0 || !IsDigitIn(s[0], radix) then []
    else [DigitValue(s[0]).value] + LeadingDigits(s[1..], radix)
  }

  /** The number a digit sequence denotes, most significant digit first. */
  function ValueOf(ds: seq<nat>, radix: nat): nat {
    if |ds| == 0 then 0 else ValueOf(ds[..|ds| - 1], radix) * radix + ds[|ds| - 1]
  }

  /** The digits after an optional `0x`/`0X` prefix, read in base 16 with it and in base 10 without. */
  function ParseUnsigned(u: string): Option<nat> {
    var hex := |u| >= 2 && u[0] == '0' && (u[1] == 'x' || u[1] == 'X');
    var ds := if hex then LeadingDigits(u[2..], 16) else LeadingDigits(u, 10);
    if |ds| == 0 then None else Some(ValueOf(ds, if hex then 16 else 10))
  }

  /** The text after an optional leading `-` or `+`. */
  function StripSign(t: string): string {
    if |t| > 0 && (t[0] == '-' || t[0] == '+') then t[1..] else t
  }

  /**
   * JavaScript `parseInt(s)` without a radix: skip leading whitespace, take
   * an optional sign, read base 16 after a `0x`/`0X` prefix and base 10
   * otherwise, and stop at the first character that is not a digit; no
   * digits at all is NaN, here `None`.
   */
  function ParseInt(s: string): Option<int> {
    var t := TrimStart(s);
    match ParseUnsigned(StripSign(t))
    case None => None
    case Some(n) => Some(if |t| > 0 && t[0] == '-' then -(n as int) else n)
  }

  /** The priority box's change handler: `parseInt(value) || 1`; NaN and zero (also `-0`) fall back to 1. */
  function ParsePriority(value: string): (r: int)
    ensures r != 0
    ensures ParseInt(value).Some? && ParseInt(value).value != 0 ==> r == ParseInt(value).value
    ensures ParseInt(value).None? || ParseInt(value).value == 0 ==> r == 1
  {
    match ParseInt(value)
    case None => 1
    case Some(n) => if n == 0 then 1 else n
  }

  /** The decimal digits of `n`, as a number input shows it. */
  function DecimalString(n: nat): (r: string)
    ensures |r| >= 1 && forall k :: 0 <= k < |r| ==> '0' <= r[k] <= '9'
    ensures n >= 1 ==> r[0] != '0'
  {
    var d := ['0' + (n % 10) as char];
    if n < 10 then d else DecimalString(n / 10) + d
  }

  /** The values of the characters of a numeral, one digit each. */
  function DigitValues(s: string): (r: seq<nat>)
    requires forall k :: 0 <= k < |s| ==> '0' <= s[k] <= '9'
    ensures |r| == |s|
  {
    if |s| == 0 then [] else [s[0] as nat - '0' as nat] + DigitValues(s[1..])
  }

  lemma {:induction false} DigitValuesAppend(a: string, b: string)
    requires forall k :: 0 <= k < |a| ==> '0' <= a[k] <= '9'
    requires forall k :: 0 <= k < |b| ==> '0' <= b[k] <= '9'
    ensures DigitValues(a + b) == DigitValues(a) + DigitValues(b)
  {
    if |a| > 0 {
      assert (a + b)[0] == a[0] && (a + b)[1..] == a[1..] + b;
      DigitValuesAppend(a[1..], b);
    } else {
      assert a + b == b;
    }
  }

  lemma {:induction false} LeadingDigitsOfDecimal(s: string, rest: string)
    requires forall k :: 0 <= k < |s| ==> '0' <= s[k] <= '9'
    requires |rest| > 0 ==> !IsDigitIn(rest[0], 10)
    ensures LeadingDigits(s + rest, 10) == DigitValues(s)
  {
    if |s| > 0 {
      var t := s + rest;
      assert t[0] == s[0] && t[1..] == s[1..] + rest;
      assert IsDigitIn(t[0], 10) && DigitValue(t[0]).value == s[0] as nat - '0' as nat;
      assert forall k :: 0 <= k < |s[1..]| ==> s[1..][k] == s[k + 1];
      LeadingDigitsOfDecimal(s[1..], rest);
    } else {
      assert s + rest == rest;
    }
  }

  lemma {:induction false} ValueOfDecimal(n: nat)
    ensures ValueOf(DigitValues(DecimalString(n)), 10) == n
  {
    if n >= 10 {
      var p := DecimalString(n / 10);
      var d := ['0' + (n % 10) as char];
      assert DecimalString(n) == p + d;
      DigitValuesAppend(p, d);
      var ds := DigitValues(p) + DigitValues(d);
      assert DigitValues(d) == [n % 10];
      assert ds[..|ds| - 1] == DigitValues(p);
      ValueOfDecimal(n / 10);
    } else {
      assert DigitValues(DecimalString(n)) == [n];
      assert [n][..0] == [];
    }
  }

  /** A decimal numeral followed by a non-digit reads as its value. */
  lemma UnsignedOfDecimal(n: nat, rest: string)
    requires n >= 1
    requires |rest| > 0 ==> !IsDigitIn(rest[0], 10)
    ensures ParseUnsigned(DecimalString(n) + rest) == Some(n)
  {
    var s := DecimalString(n);
    var v := s + rest;
    assert v[0] == s[0] != '0';
    LeadingDigitsOfDecimal(s, rest);
    ValueOfDecimal(n);
  }

  /**
   * A positive number typed in decimal, possibly followed by a fraction or
   * anything else that does not start with a digit, becomes that priority.
   */
  lemma PriorityOfDecimal(n: nat, rest: string)
    requires n >= 1
    requires |rest| > 0 ==> !IsDigitIn(rest[0], 10)
    ensures ParsePriority(DecimalString(n) + rest) == n
  {
    var v := DecimalString(n) + rest;
    assert v[0] == DecimalString(n)[0];
    assert TrimStart(v) == v;
    assert StripSign(v) == v;
    UnsignedOfDecimal(n, rest);
    assert ParseInt(v) == Some(n as int);
  }

  /** The lower bound of the input is not enforced: a typed negative number is kept. */
  lemma NegativePriorityKept(n: nat)
    requires n >= 1
    ensures ParsePriority("-" + DecimalString(n)) == -(n as int)
  {
    var s := DecimalString(n);
    var v := "-" + s;
    assert TrimStart(v) == v;
    assert v[1..] == s + "";
    UnsignedOfDecimal(n, "");
  }

  /** An empty box gives priority 1. */
  lemma EmptyFallsBack()
    ensures ParsePriority("") == 1
  {
    assert TrimStart("") == "";
    assert LeadingDigits("", 10) == [];
  }

  lemma UnsignedZero()
    ensures ParseUnsigned("0") == Some(0)
  {
    assert LeadingDigits("0", 10) == [0] by {
      assert "0"[1..] == "";
    }
    assert ValueOf([0], 10) == 0 by {
      assert [0][..0] == [];
    }
  }

  lemma IntZero()
    ensures ParseInt("0") == Some(0)
  {
    var v := "0";
    assert TrimStart(v) == v;
    assert StripSign(v) == v;
    UnsignedZero();
  }

  /** A zero gives priority 1. */
  lemma ZeroFallsBack()
    ensures ParsePriority("0") == 1
  {
    IntZero();
  }

  /** Negative zero is falsy as well. */
  lemma NegativeZeroFallsBack()
    ensures ParsePriority("-0") == 1
  {
    var v := "-0";
    assert TrimStart(v) == v;
    assert v[1..] == "0";
    UnsignedZero();
  }

  /** Text without leading digits is NaN and gives priority 1. */
  lemma NonNumericFallsBack()
    ensures ParsePriority("abc") == 1
  {
    var v := "abc";
    assert TrimStart(v) == v;
    assert !IsDigitIn(v[0], 10);
  }

  /** A hexadecimal literal is read in base 16. */
  lemma PriorityHex()
    ensures ParsePriority("0x1f") == 31
  {
    var u := "0x1f";
    assert TrimStart(u) == u;
    assert StripSign(u) == u;
    HexDigitsOfOneF();
    assert ParseUnsigned(u) == Some(31);
  }

  lemma HexDigitsOfOneF()
    ensures "0x1f"[2..] == "1f" && LeadingDigits("1f", 16) == [1, 15] && ValueOf([1, 15], 16) == 31
  {
    assert "0x1f"[2..] == "1f";
    assert "1f"[1..] == "f" && "f"[1..] == "";
    assert LeadingDigits("f", 16) == [15];
    assert [1, 15][..1] == [1] && [1][..0] == [];
  }

  // ---- status toggle ----

  /** `update.status === 'active' ? 'inactive' : 'active'`. */
  function ToggledStatus(s: UpdateStatus): (r: UpdateStatus)
    ensures r != s
  {
    if s == Active then Inactive else Active
  }

  lemma ToggleInvolution(s: UpdateStatus)
    ensures ToggledStatus(ToggledStatus(s)) == s
  {
  }

  // ---- submit ----

  /** `updateData`: the five form fields and the author. */
  datatype UpdateData = UpdateData(
    title: string,
    description: string,
    kind: UpdateType,
    status: UpdateStatus,
    priority: int,
    authorId: Option<string>)

  /** The database call a submit makes, if any. */
  datatype SubmitAction = Invalid | UpdateRow(id: string, data: UpdateData) | InsertRow(data: UpdateData)

  predicate FormValid(f: UpdateForm) {
    Trim(f.title) != "" && Trim(f.description) != ""
  }

  function DataOf(f: UpdateForm, authorId: Option<string>): UpdateData {
    UpdateData(f.title, f.description, f.kind, f.status, f.priority, authorId)
  }

  function SubmitRequestFor(form: UpdateForm, editing: Option<FreelanceUpdate>, authorId: Option<string>): SubmitAction {
    if !FormValid(form) then Invalid
    else
      match editing
      case Some(u) => UpdateRow(u.id, DataOf(form, authorId))
      case None => InsertRow(DataOf(form, authorId))
  }

  /** The stored update after an update call with `d`. */
  function ApplyData(u: FreelanceUpdate, d: UpdateData): FreelanceUpdate {
    FreelanceUpdate(u.id, d.title, d.description, d.kind, d.status, d.priority)
  }

  /**
   * A submit is refused exactly when the title or the description is empty
   * or all whitespace; otherwise it updates the edited row by its id or
   * inserts a new one.
   */
  lemma SubmitValidation(form: UpdateForm, editing: Option<FreelanceUpdate>, authorId: Option<string>)
    ensures SubmitRequestFor(form, editing, authorId) == Invalid <==> IsBlank(form.title) || IsBlank(form.description)
    ensures SubmitRequestFor(form, editing, authorId).UpdateRow? <==>
      editing.Some? && !SubmitRequestFor(form, editing, authorId).Invalid?
    ensures SubmitRequestFor(form, editing, authorId).UpdateRow? ==>
      SubmitRequestFor(form, editing, authorId).id == editing.value.id
  {
    TrimEmptyIffBlank(form.title);
    TrimEmptyIffBlank(form.description);
  }

  /** What is sent is the form back: applying it to a row and reading the row into a form gives the form. */
  lemma SubmittedDataIsForm(form: UpdateForm, u: FreelanceUpdate, authorId: Option<string>)
    ensures FormOf(ApplyData(u, DataOf(form, authorId))) == form
    ensures ApplyData(u, DataOf(form, authorId)).id == u.id
  {
  }

  /** Opening an update and submitting without edits writes it back unchanged. */
  lemma EditThenSubmit(u: FreelanceUpdate, authorId: Option<string>)
    requires !IsBlank(u.title) && !IsBlank(u.description)
    ensures SubmitRequestFor(FormOf(u), Some(u), authorId).UpdateRow?
    ensures ApplyData(u, SubmitRequestFor(FormOf(u), Some(u), authorId).data) == u
  {
    SubmitValidation(FormOf(u), Some(u), authorId);
  }

  // ---- the manager component ----

  class UpdatesManager {
    var formData: UpdateForm
    var editingUpdate: Option<FreelanceUpdate>
    var showDialog: bool

    constructor()
      ensures formData == EmptyForm && editingUpdate == None && !showDialog
    {
      formData := EmptyForm;
      editingUpdate := None;
      showDialog := false;
    }

    /** `resetForm`: the empty form and no update being edited; the dialog is left as it is. */
    method ResetForm()
      modifies this
      ensures formData == EmptyForm && editingUpdate == None && showDialog == old(showDialog)
    {
      formData := EmptyForm;
      editingUpdate := None;
    }

    /** `handleEdit`: the form holds the update's fields, and the dialog opens on it. */
    method Edit(update: FreelanceUpdate)
      modifies this
      ensures formData == FormOf(update) && editingUpdate == Some(update) && showDialog
    {
      formData := UpdateForm(update.title, update.description, update.kind, update.status, update.priority);
      editingUpdate := Some(update);
      showDialog := true;
    }

    /** `handleCreate`: reset, then open the dialog. */
    method Create()
      modifies this
      ensures formData == EmptyForm && editingUpdate == None && showDialog
    {
      ResetForm();
      showDialog := true;
    }

    /** Cancel and the dialog's own close: the form and the edited update are kept. */
    method CloseDialog()
      modifies this
      ensures !showDialog && formData == old(formData) && editingUpdate == old(editingUpdate)
    {
      showDialog := false;
    }

    method SetTitle(value: string)
      modifies this
      ensures formData == old(formData).(title := value)
      ensures editingUpdate == old(editingUpdate) && showDialog == old(showDialog)
    {
      formData := formData.(title := value);
    }

    method SetDescription(value: string)
      modifies this
      ensures formData == old(formData).(description := value)
      ensures editingUpdate == old(editingUpdate) && showDialog == old(showDialog)
    {
      formData := formData.(description := value);
    }

    method SetType(value: UpdateType)
      modifies this
      ensures formData == old(formData).(kind := value)
      ensures editingUpdate == old(editingUpdate) && showDialog == old(showDialog)
    {
      formData := formData.(kind := value);
    }

    method SetStatus(value: UpdateStatus)
      modifies this
      ensures formData == old(formData).(status := value)
      ensures editingUpdate == old(editingUpdate) && showDialog == old(showDialog)
    {
      formData := formData.(status := value);
    }

    /** The priority box: the typed text through `parseInt(value) || 1`, never zero. */
    method SetPriority(value: string)
      modifies this
      ensures formData == old(formData).(priority := ParsePriority(value)) && formData.priority != 0
      ensures editingUpdate == old(editingUpdate) && showDialog == old(showDialog)
    {
      formData := formData.(priority := ParsePriority(value));
    }

    /**
     * `handleSubmit`. `dbSucceeds` is whether the database call reported no
     * error. Only a successful call closes the dialog and resets the form;
     * a refused or failed submit leaves the state as it was.
     */
    method Submit(authorId: Option<string>, dbSucceeds: bool) returns (request: SubmitAction)
      modifies this
      ensures request == SubmitRequestFor(old(formData), old(editingUpdate), authorId)
      ensures request.Invalid? || !dbSucceeds ==>
        formData == old(formData) && editingUpdate == old(editingUpdate) && showDialog == old(showDialog)
      ensures !request.Invalid? && dbSucceeds ==>
        formData == EmptyForm && editingUpdate == None && !showDialog
    {
      if Trim(formData.title) == "" || Trim(formData.description) == "" {
        return Invalid;
      }
      var updateData := UpdateData(formData.title, formData.description, formData.kind,
                                   formData.status, formData.priority, authorId);
      if editingUpdate.Some? {
        request := UpdateRow(editingUpdate.value.id, updateData);
      } else {
        request := InsertRow(updateData);
      }
      if dbSucceeds {
        showDialog := false;
        ResetForm();
      }
    }
  }
}
