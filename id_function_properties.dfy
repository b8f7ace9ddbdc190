/**
 * Properties that relate the operations of the IdFunction model to each
 * other and to the behaviour the endpoint documents.
 */
module IdFunctionProperties {
  import opened Wrappers
  import opened IdFunction

  /** Validation in one line: an identifier passes exactly when its length is 13 or it is a passport number. */
  lemma ValidIff(id: string)
    ensures ValidateInput(id).isValid <==> |id| == 13 || IsPassportNumber(id)
  {
  }

  /** Digits are not checked on a 13-character identifier, although the usage hint asks for a numerical ID. */
  lemma ThirteenLettersAccepted()
    ensures ValidateInput("ABCDEFGHIJKLM").isValid
  {
  }

  /** One letter followed by eight digits passes; the same characters the other way round do not. */
  lemma PassportExamples()
    ensures ValidateInput("A12345678").isValid
    ensures !ValidateInput("12345678A").isValid
    ensures ValidateInput("12345678A").errorMessage == Some(UsageHint)
  {
  }

  /**
   * A request that is rejected for its identifier is rejected whatever the
   * dataset holds or whether it can be read at all: the lookup is not reached.
   */
  lemma RejectedIgnoresDataset(id: Option<string>, d1: Result<seq<VaccinationInfo>, DatasetError>,
                               d2: Result<seq<VaccinationInfo>, DatasetError>)
    requires IsNullOrEmpty(id) || !ValidateInput(id.value).isValid
    ensures Run(id, d1) == Run(id, d2) == BadRequest(InvalidInputError, UsageHint)
  {
  }

  /**
   * On a 200 outcome the message reports a national ID exactly when the
   * identifier has 13 characters, and a passport exactly when it is a
   * passport number; the identifier follows the prefix verbatim.
   */
  lemma OkMessageKind(id: Option<string>, dataset: Result<seq<VaccinationInfo>, DatasetError>)
    requires Run(id, dataset).Ok?
    ensures id.Some?
    ensures Run(id, dataset).message == IdPrefix + id.value <==> |id.value| == 13
    ensures Run(id, dataset).message == PassportPrefix + id.value <==> IsPassportNumber(id.value)
  {
  }

  /**
   * Lookup over a dataset split in two: a match in the first part wins;
   * otherwise the index found in the second part is shifted by the length
   * of the first.
   */
  lemma {:induction false} FirstMatchIndexAppend(a: seq<VaccinationInfo>, b: seq<VaccinationInfo>, id: string)
    ensures FirstMatchIndex(a + b, id) ==
      match FirstMatchIndex(a, id)
      case Some(k) => Some(k)
      case None =>
        match FirstMatchIndex(b, id)
        case Some(k) => Some(|a| + k)
        case None => None
  {
    if |a| == 0 {
      assert a + b == b;
    } else {
      assert (a + b)[0] == a[0];
      assert (a + b)[1..] == a[1..] + b;
      FirstMatchIndexAppend(a[1..], b, id);
    }
  }

  /** The record found in a concatenated dataset: the first part's match if it has one, else the second part's answer. */
  lemma GetVaccinationInfoAppend(a: seq<VaccinationInfo>, b: seq<VaccinationInfo>, id: string)
    ensures GetVaccinationInfo(a + b, id) ==
      if FirstMatchIndex(a, id).Some? then GetVaccinationInfo(a, id) else GetVaccinationInfo(b, id)
  {
    FirstMatchIndexAppend(a, b, id);
    match FirstMatchIndex(a, id)
    case Some(k) =>
      assert (a + b)[k] == a[k];
    case None =>
      match FirstMatchIndex(b, id)
      case Some(k) =>
        assert (a + b)[|a| + k] == b[k];
      case None =>
  }

  /** The documented (not enforced) dataset invariant: no two records share a non-null identifier. */
  predicate UniqueIdentifiers(data: seq<VaccinationInfo>) {
    forall i, j :: 0 <= i < j < |data| && data[i].identifier.Some? ==> data[i].identifier != data[j].identifier
  }

  /** When identifiers are unique, dataset order does not matter: the lookup returns the one record that matches. */
  lemma LookupUnique(data: seq<VaccinationInfo>, i: nat, id: string)
    requires UniqueIdentifiers(data)
    requires i < |data| && Matches(data[i], id)
    ensures GetVaccinationInfo(data, id) == data[i]
  {
  }

  /** A one-record dataset: a vaccinated person named "A" with national ID 1234567890123. */
  function ExampleDataset(): seq<VaccinationInfo> {
    [VaccinationInfo(Some("1234567890123"), true, None, Some("A"), None)]
  }

  /** A national ID present in the dataset returns its record. */
  lemma KnownIdExample()
    ensures Run(Some("1234567890123"), Success(ExampleDataset())) ==
      Ok("Received ID: 1234567890123", ExampleDataset()[0])
  {
    assert FirstMatchIndex(ExampleDataset(), "1234567890123") == Some(0);
  }

  /** A national ID absent from the dataset returns the synthesised unvaccinated record. */
  lemma UnknownIdExample()
    ensures Run(Some("9999999999999"), Success(ExampleDataset())) ==
      Ok("Received ID: 9999999999999", VaccinationInfo(Some("9999999999999"), false, None, None, None))
  {
    assert !Matches(ExampleDataset()[0], "9999999999999");
  }

  /** A valid passport number meets an unreadable dataset with 500; an absent identifier gets 400 whatever the dataset. */
  lemma FailureExamples()
    ensures Run(Some("A12345678"), Failure(DatasetUnavailable)) == ServerError
    ensures Run(None, Failure(DatasetMalformed)) == BadRequest("Invalid input", UsageHint)
  {
    PassportExamples();
  }
}
