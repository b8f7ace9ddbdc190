/**
 * The request decision procedure of the IdFunction HTTP endpoint
 * (Function/Functions/ID.cs): syntax validation of an identifier, the
 * human-readable response message, the dataset lookup with its fallback
 * record, and the outcome of one GET /id/{id?} request.
 *
 * A C# `string` is modelled as a Dafny `string`, a sequence of Unicode
 * scalar values. `|s|` agrees with the source's `s.Length` (which counts
 * UTF-16 code units) for every string within the Basic Multilingual Plane.
 * A C# null is `None`.
 */
module IdFunction {
  import opened Wrappers

  /** One record of the vaccination dataset. Its string fields may be null. */
  datatype VaccinationInfo = VaccinationInfo(
    identifier: Option<string>,
    vaccinated: bool,
    vaccinationDate: Option<string>,
    name: Option<string>,
    clinic: Option<string>)

  /** The verdict of syntax validation. The error message is null on a valid identifier. */
  datatype ValidationResult = ValidationResult(isValid: bool, errorMessage: Option<string>)

  /** Why the dataset could not be supplied: the file is missing or unreadable, or it is not a JSON array of records. */
  datatype DatasetError = DatasetUnavailable | DatasetMalformed

  /**
   * What the endpoint answers: 400 with an error object, 200 with the
   * message and the record, or a 500 with no body.
   */
  datatype Outcome =
    | BadRequest(error: string, message: string)
    | Ok(message: string, vaccinationData: VaccinationInfo)
    | ServerError

  const InvalidInputError: string := "Invalid input"
  const UsageHint: string := "Please enter numerical 13 digit ID or 9 character passport number starting with a letter [A-Z]."
  const IdPrefix: string := "Received ID: "
  const PassportPrefix: string := "Received Passport: "

  /** The HTTP status code carried by an outcome. */
  function StatusCode(o: Outcome): int {
    match o
    case BadRequest(_, _) => 400
    case Ok(_, _) => 200
    case ServerError => 500
  }

  /** `string.IsNullOrEmpty`: the route segment is absent or empty. */
  predicate IsNullOrEmpty(id: Option<string>) {
    id.None? || id.value == ""
  }

  predicate IsAsciiLetter(c: char) {
    'A' <= c <= 'Z' || 'a' <= c <= 'z'
  }

  predicate IsAsciiDigit(c: char) {
    '0' <= c <= '9'
  }

  /** The documented passport number: one ASCII letter followed by eight ASCII digits. */
  predicate IsPassportNumber(s: string) {
    |s| == 9 && IsAsciiLetter(s[0]) && forall i :: 1 <= i < |s| ==> IsAsciiDigit(s[i])
  }

  /**
   * `Regex.IsMatch(s, "^[A-Za-z][0-9]{8}$")` under .NET's default options:
   * `^` anchors at the start of the string, and `$` matches at its end or
   * just before a final newline.
   */
  predicate PassportPatternMatches(s: string) {
    (|s| == 9 || (|s| == 10 && s[9] == '\n'))
    && IsAsciiLetter(s[0])
    && forall i :: 1 <= i < 9 ==> IsAsciiDigit(s[i])
  }

  /**
   * `ValidateInput`: any identifier of length 13 passes, whatever its
   * characters; one of length 9 passes exactly when it is a passport number;
   * any other length fails. Every failure carries the usage hint.
   */
  function ValidateInput(id: string): (r: ValidationResult)
    ensures |id| == 13 ==> r.isValid
    ensures |id| == 9 ==> (r.isValid <==> IsPassportNumber(id))
    ensures |id| != 9 && |id| != 13 ==> !r.isValid
    ensures r.isValid <==> r.errorMessage.None?
    ensures !r.isValid ==> r.errorMessage == Some(UsageHint)
  {
    if |id| == 13 || (|id| == 9 && PassportPatternMatches(id)) then
      ValidationResult(true, None)
    else
      ValidationResult(false, Some(UsageHint))
  }

  /**
   * The `responseMessage` ternary. The message is a fixed prefix followed by
   * the identifier verbatim, and nothing else; the prefix tells a 13-character national ID apart from
   * everything else, which is reported as a passport.
   */
  function ResponseMessage(id: string): (r: string)
    ensures |r| == (if |id| == 13 then |IdPrefix| else |PassportPrefix|) + |id|
    ensures r[|r| - |id|..] == id
    ensures IdPrefix <= r <==> |id| == 13
    ensures PassportPrefix <= r <==> |id| != 13
  {
    // The two prefixes differ at index 9 ('I' against 'P').
    assert IdPrefix[9] == 'I' && PassportPrefix[9] == 'P';
    if |id| == 13 then
      var r := IdPrefix + id;
      assert r[9] == 'I';
      r
    else
      var r := PassportPrefix + id;
      assert r[9] == 'P';
      r
  }

  /** The LINQ predicate `info.Identifier == identifier`: ordinal, case-sensitive; a null identifier never matches. */
  predicate Matches(info: VaccinationInfo, id: string) {
    info.identifier == Some(id)
  }

  /**
   * Where `FirstOrDefault` stops: the index of the first record, in dataset
   * order, that matches `id`, or None when no record matches.
   */
  function FirstMatchIndex(data: seq<VaccinationInfo>, id: string): (r: Option<nat>)
    ensures r.Some? ==>
      r.value < |data| && Matches(data[r.value], id)
      && forall j :: 0 <= j < r.value ==> !Matches(data[j], id)
    ensures r.None? <==> forall j :: 0 <= j < |data| ==> !Matches(data[j], id)
  {
    if |data| == 0 then None
    else if Matches(data[0], id) then Some(0)
    else
      match FirstMatchIndex(data[1..], id)
      case None => None
      case Some(k) => Some(k + 1)
  }

  /** The record synthesised when nothing matches: not vaccinated, every other field null. */
  function NotFoundRecord(id: string): VaccinationInfo {
    VaccinationInfo(Some(id), false, None, None, None)
  }

  /**
   * The lookup of `GetVaccinationInfo` over an already loaded dataset: the
   * first matching record, or else the synthesised record. Either way the
   * record's identifier is the input.
   */
  function GetVaccinationInfo(data: seq<VaccinationInfo>, id: string): (r: VaccinationInfo)
    ensures r.identifier == Some(id)
    ensures (exists i :: 0 <= i < |data| && Matches(data[i], id)) ==>
      exists i :: 0 <= i < |data| && r == data[i]
        && forall j :: 0 <= j < i ==> !Matches(data[j], id)
    ensures (forall i :: 0 <= i < |data| ==> !Matches(data[i], id)) ==>
      r == VaccinationInfo(Some(id), false, None, None, None)
  {
    match FirstMatchIndex(data, id)
    case Some(k) => data[k]
    case None => NotFoundRecord(id)
  }

  /**
   * `Run`: an absent or empty identifier and an invalid one are answered
   * with 400 and the usage hint; a valid one with 200, its message and the
   * looked-up record; and with 500 when the dataset cannot be supplied. The
   * dataset is consulted only for a valid identifier.
   */
  function Run(id: Option<string>, dataset: Result<seq<VaccinationInfo>, DatasetError>): (r: Outcome)
    ensures IsNullOrEmpty(id) ==> r == BadRequest(InvalidInputError, UsageHint)
    ensures StatusCode(r) == 400 <==> IsNullOrEmpty(id) || !ValidateInput(id.value).isValid
    ensures r.BadRequest? ==> r.error == InvalidInputError && r.message == UsageHint
    ensures StatusCode(r) == 500 <==>
      !IsNullOrEmpty(id) && ValidateInput(id.value).isValid && dataset.Failure?
    ensures StatusCode(r) == 200 <==>
      !IsNullOrEmpty(id) && ValidateInput(id.value).isValid && dataset.Success?
    ensures r.Ok? ==>
      id.Some? && dataset.Success?
      && r.message == ResponseMessage(id.value)
      && r.vaccinationData == GetVaccinationInfo(dataset.value, id.value)
      && r.vaccinationData.identifier == id
  {
    if IsNullOrEmpty(id) then
      BadRequest(InvalidInputError, UsageHint)
    else
      var responseMessage := ResponseMessage(id.value);
      var validation := ValidateInput(id.value);
      if !validation.isValid then
        BadRequest(InvalidInputError, validation.errorMessage.value)
      else
        match dataset
        case Failure(_) => ServerError
        case Success(data) => Ok(responseMessage, GetVaccinationInfo(data, id.value))
  }
}
