/** The field validators of src/constants/validation.ts. Each answers `None`
  * (JavaScript `null`) when the value is acceptable and otherwise one of the
  * fixed Portuguese messages. Amounts and sizes are decimal numbers, read
  * exactly as `real`. */
module Validation {
  import opened Wrappers
  import JsValues
  import opened Text
  import Dates

  const REQUIRED: string := "Este campo é obrigatório"
  const MIN_AMOUNT: string := "O valor deve ser maior que zero"
  const MAX_AMOUNT: string := "O valor deve ser menor que R$ 1.000.000,00"
  const INVALID_EMAIL: string := "Email inválido"
  const MIN_PASSWORD: string := "A senha deve ter pelo menos 6 caracteres"
  const PASSWORDS_NOT_MATCH: string := "As senhas não coincidem"
  const INVALID_DATE: string := "Data inválida"
  const FUTURE_DATE: string := "A data não pode ser futura"
  const PAST_DATE: string := "A data não pode ser muito antiga"
  const MIN_DESCRIPTION: string := "A descrição deve ter pelo menos 3 caracteres"
  const MAX_DESCRIPTION: string := "A descrição deve ter no máximo 100 caracteres"
  const INVALID_CATEGORY: string := "Categoria inválida"
  const FILE_TOO_LARGE: string := "Arquivo muito grande"
  const INVALID_FILE_TYPE: string := "Tipo de arquivo não suportado"

  /** `validateRequired(value)`: a falsy value or a blank string is missing. */
  function ValidateRequired(v: JsValues.Value): (r: Option<string>)
    ensures r == None || r == Some(REQUIRED)
    ensures r == Some(REQUIRED) <==> !JsValues.Truthy(v) || (v.Str? && AllWhite(v.text))
  {
    TrimEmptyIffWhite(if v.Str? then v.text else "");
    if !JsValues.Truthy(v) || (v.Str? && Trim(v.text) == "") then Some(REQUIRED) else None
  }

  /** `validateAmount(value)`: `!value || value <= 0`; zero is falsy and not
    * positive alike. */
  function ValidateAmount(value: real): (r: Option<string>)
    ensures r == None <==> value > 0.0
    ensures r.Some? ==> r.value == MIN_AMOUNT
  {
    if value == 0.0 || value <= 0.0 then Some(MIN_AMOUNT) else None
  }

  // ---------------------------------------------------------------------
  // validateEmail: /^[^\s@]+@[^\s@]+\.[^\s@]+$/
  // ---------------------------------------------------------------------

  /** A non-empty stretch of the class `[^\s@]`. */
  predicate Segment(t: string)
  {
    |t| > 0 && forall j :: 0 <= j < |t| ==> t[j] != '@' && !IsWhite(t[j])
  }

  /** The regular expression matches with its `@` at `i` and the `\.` it
    * needs at `k`. */
  predicate MatchesAt(s: string, i: int, k: int)
  {
    0 < i && i + 1 < k && k + 1 < |s| && s[i] == '@' && s[k] == '.' &&
    Segment(s[..i]) && Segment(s[i + 1..k]) && Segment(s[k + 1..])
  }

  /** The language of the regular expression. */
  ghost predicate EmailPattern(s: string)
  {
    exists i, k :: MatchesAt(s, i, k)
  }

  /** A direct test: the first `@` is not the first character, every other
    * character is neither `@` nor white space, and a `.` follows the `@`
    * with at least one character on either side of it. */
  predicate IsEmail(s: string)
  {
    match IndexOfFrom(s, '@', 0)
    case None => false
    case Some(i) =>
      i > 0 &&
      (forall j :: 0 <= j < |s| && j != i ==> s[j] != '@' && !IsWhite(s[j])) &&
      (match IndexOfFrom(s, '.', i + 2)
       case None => false
       case Some(k) => k + 1 < |s|)
  }

  /** The direct test accepts exactly the language of the regular
    * expression. */
  lemma {:induction false} IsEmailIsPattern(s: string)
    ensures IsEmail(s) <==> EmailPattern(s)
  {
    if IsEmail(s) {
      var i := IndexOfFrom(s, '@', 0).value;
      var k := IndexOfFrom(s, '.', i + 2).value;
      assert forall j :: 0 <= j < i ==> s[..i][j] == s[j];
      assert forall j :: i + 1 <= j < k ==> s[i + 1..k][j - i - 1] == s[j];
      assert forall j :: k + 1 <= j < |s| ==> s[k + 1..][j - k - 1] == s[j];
      assert MatchesAt(s, i, k);
    }
    if EmailPattern(s) {
      var i, k :| MatchesAt(s, i, k);
      PatternFields(s, i, k);
      var k' := IndexOfFrom(s, '.', i + 2);
      assert k'.Some? && k'.value <= k;
    }
  }

  /** What a match says about the single characters of `s`. */
  lemma {:induction false} PatternFields(s: string, i: int, k: int)
    requires MatchesAt(s, i, k)
    ensures IndexOfFrom(s, '@', 0) == Some(i)
    ensures forall j :: 0 <= j < |s| && j != i ==> s[j] != '@' && !IsWhite(s[j])
  {
    forall j | 0 <= j < |s| && j != i
      ensures s[j] != '@' && !IsWhite(s[j])
    {
      if j < i {
        assert s[j] == s[..i][j];
      } else if j < k {
        assert s[j] == s[i + 1..k][j - i - 1];
      } else if j > k {
        assert s[j] == s[k + 1..][j - k - 1];
      }
    }
  }

  /** `validateEmail(email)` */
  function ValidateEmail(email: string): (r: Option<string>)
    ensures r == None <==> EmailPattern(email)
    ensures r.Some? ==> r.value == INVALID_EMAIL
  {
    IsEmailIsPattern(email);
    if IsEmail(email) then None else Some(INVALID_EMAIL)
  }

  // ---------------------------------------------------------------------
  // Passwords, amounts and dates
  // ---------------------------------------------------------------------

  /** `validatePassword(password)` */
  function ValidatePassword(password: string): (r: Option<string>)
    ensures r == None <==> |password| >= 6
    ensures r.Some? ==> r.value == MIN_PASSWORD
  {
    if |password| < 6 then Some(MIN_PASSWORD) else None
  }

  /** `validatePasswordMatch(password, confirmPassword)` */
  function ValidatePasswordMatch(password: string, confirm: string): (r: Option<string>)
    ensures r == None <==> password == confirm
    ensures r.Some? ==> r.value == PASSWORDS_NOT_MATCH
  {
    if password != confirm then Some(PASSWORDS_NOT_MATCH) else None
  }

  /** `validateAmountRange(value)`: accepted exactly on `0 < value < 1000000`. */
  function ValidateAmountRange(value: real): (r: Option<string>)
    ensures r == None <==> 0.0 < value < 1000000.0
    ensures r == Some(MIN_AMOUNT) <==> value <= 0.0
    ensures r == Some(MAX_AMOUNT) <==> value >= 1000000.0
  {
    if value <= 0.0 then Some(MIN_AMOUNT)
    else if value >= 1000000.0 then Some(MAX_AMOUNT)
    else None
  }

  /** `validateDate(dateString)` at the instant `now`: the date is read as
    * midnight of its day and must lie between the same instant a year ago
    * and now. */
  function ValidateDate(dateString: string, now: Dates.Instant): (r: Option<string>)
    requires Dates.ValidInstant(now)
    ensures r == Some(INVALID_DATE) <==> Dates.Parse(dateString).None?
    ensures r == None <==>
      Dates.Parse(dateString).Some? &&
      Dates.InstantLe(Dates.YearEarlier(now), Dates.StartOf(Dates.Parse(dateString).value)) &&
      Dates.InstantLe(Dates.StartOf(Dates.Parse(dateString).value), now)
  {
    match Dates.Parse(dateString)
    case None => Some(INVALID_DATE)
    case Some(d) =>
      if !Dates.InstantLe(Dates.StartOf(d), now) then Some(FUTURE_DATE)
      else if !Dates.InstantLe(Dates.YearEarlier(now), Dates.StartOf(d)) then Some(PAST_DATE)
      else None
  }

  /** Today is always an acceptable date, on any day of the years 1..9999. */
  lemma {:induction false} TodayIsValid(now: Dates.Instant)
    requires Dates.ValidInstant(now) && 0 <= now.date.year <= 9999
    ensures ValidateDate(Dates.Format(now.date), now) == None
  {
    Dates.ParseFormat(now.date);
  }

  /** A day after today is in the future, and a day before the same day last
    * year is too old. */
  lemma {:induction false} DateOutOfWindow(d: Dates.Day, now: Dates.Instant)
    requires Dates.ValidInstant(now) && Dates.Valid(d) && 0 <= d.year <= 9999
    ensures Dates.Before(now.date, d) ==> ValidateDate(Dates.Format(d), now) == Some(FUTURE_DATE)
    ensures Dates.Before(d, Dates.YearEarlier(now).date) ==> ValidateDate(Dates.Format(d), now) == Some(PAST_DATE)
  {
    Dates.ParseFormat(d);
    Dates.BeforeTotal(now.date, d);
  }

  // ---------------------------------------------------------------------
  // Description and category
  // ---------------------------------------------------------------------

  /** `validateDescription(description)`: at least 3 characters once trimmed,
    * at most 100 as written. */
  function ValidateDescription(description: string): (r: Option<string>)
    ensures r == None <==> |Trim(description)| >= 3 && |description| <= 100
    ensures r == Some(MIN_DESCRIPTION) <==> |Trim(description)| < 3
  {
    if description == "" || |Trim(description)| < 3 then Some(MIN_DESCRIPTION)
    else if |description| > 100 then Some(MAX_DESCRIPTION)
    else None
  }

  /** `validateCategory(category, validCategories)` */
  function ValidateCategory(category: string, valid: seq<string>): (r: Option<string>)
    ensures r == None <==> !AllWhite(category) && category in valid
    ensures r == Some(REQUIRED) <==> AllWhite(category)
  {
    TrimEmptyIffWhite(category);
    if category == "" || Trim(category) == "" then Some(REQUIRED)
    else if category !in valid then Some(INVALID_CATEGORY)
    else None
  }

  // ---------------------------------------------------------------------
  // validateFile
  // ---------------------------------------------------------------------

  /** The fields of the picked file the validator reads; either may be
    * missing. */
  datatype FileInfo = FileInfo(size: Option<real>, mimeType: Option<string>)

  const DEFAULT_MAX_SIZE_MB: real := 10.0
  const DEFAULT_ALLOWED_TYPES: seq<string> := ["image/*", "application/pdf"]
  const BYTES_PER_MB: real := 1048576.0

  /** An allowed type ending in a slash and a star admits every type that
    * starts with it up to and including the slash; any other admits itself
    * only. */
  predicate TypeAllows(allowed: string, mimeType: string)
  {
    if |allowed| >= 2 && allowed[|allowed| - 2..] == "/*" then allowed[..|allowed| - 1] <= mimeType
    else mimeType == allowed
  }

  predicate SomeTypeAllows(allowedTypes: seq<string>, mimeType: string)
  {
    exists a :: a in allowedTypes && TypeAllows(a, mimeType)
  }

  /** `validateFile(file, maxSizeMB, allowedTypes)`: no file is fine; a size
    * or type that is missing or falsy is not checked. */
  function ValidateFile(file: Option<FileInfo>, maxSizeMB: real, allowedTypes: seq<string>): (r: Option<string>)
    ensures file.None? ==> r == None
    ensures r == Some(FILE_TOO_LARGE) <==>
      file.Some? && file.value.size.Some? && file.value.size.value != 0.0 &&
      file.value.size.value > maxSizeMB * BYTES_PER_MB
    ensures r == None <==>
      file.None? ||
      ((file.value.size.None? || file.value.size.value == 0.0 || file.value.size.value <= maxSizeMB * BYTES_PER_MB) &&
       (file.value.mimeType.None? || file.value.mimeType.value == "" ||
        SomeTypeAllows(allowedTypes, file.value.mimeType.value)))
    ensures r == None || r == Some(FILE_TOO_LARGE) || r == Some(INVALID_FILE_TYPE)
  {
    match file
    case None => None
    case Some(f) =>
      if f.size.Some? && f.size.value != 0.0 && f.size.value > maxSizeMB * BYTES_PER_MB then Some(FILE_TOO_LARGE)
      else if f.mimeType.Some? && f.mimeType.value != "" && !SomeTypeAllows(allowedTypes, f.mimeType.value) then
        Some(INVALID_FILE_TYPE)
      else None
  }

  /** With the defaults, any image and PDFs are accepted up to 10 MB, and
    * other types are refused. */
  lemma DefaultFileTypes(sub: string, size: real)
    requires 0.0 < size <= 10485760.0
    ensures ValidateFile(Some(FileInfo(Some(size), Some("image/" + sub))), DEFAULT_MAX_SIZE_MB, DEFAULT_ALLOWED_TYPES) == None
    ensures ValidateFile(Some(FileInfo(Some(size), Some("application/pdf"))), DEFAULT_MAX_SIZE_MB, DEFAULT_ALLOWED_TYPES) == None
    ensures ValidateFile(Some(FileInfo(Some(size), Some("text/plain"))), DEFAULT_MAX_SIZE_MB, DEFAULT_ALLOWED_TYPES) == Some(INVALID_FILE_TYPE)
    ensures ValidateFile(Some(FileInfo(Some(size + 10485760.0), None)), DEFAULT_MAX_SIZE_MB, DEFAULT_ALLOWED_TYPES) == Some(FILE_TOO_LARGE)
  {
    assert TypeAllows("image/*", "image/" + sub) by {
      assert "image/*"[..6] == "image/" && ("image/" + sub)[..6] == "image/";
    }
    assert TypeAllows("application/pdf", "application/pdf");
    assert !TypeAllows("image/*", "text/plain") by {
      assert "text/plain"[0] != "image/"[0];
    }
  }
}
