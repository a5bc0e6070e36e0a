/**
 * TransactionViewModel: the values the transaction screen derives from the current
 * record and the URL-encoding toggle, and the writing and reading of mocks.
 */
module TransactionViewModels {
  import opened Wrappers
  import opened Text
  import opened Transactions
  import MockRepository

  /** `getFormattedPath(encode)` of a record; its code is not part of this model. */
  type PathFormatter = (HttpTransaction, bool) -> string

  const FORM_URL_ENCODED: string := "x-www-form-urlencoded"

  /** How a Kotlin string template prints a nullable string. */
  function TemplateText(s: Option<string>): string {
    if s.Some? then s.value else "null"
  }

  /** `transactionTitle`. */
  function TransactionTitle(transaction: Option<HttpTransaction>, encodeUrl: bool, formattedPath: PathFormatter): (title: string)
    ensures transaction.None? ==> title == ""
    ensures transaction.Some? ==>
      title == TemplateText(transaction.value.httpMethod) + " " + formattedPath(transaction.value, encodeUrl)
  {
    match transaction
    case None => ""
    case Some(t) => TemplateText(t.httpMethod) + " " + formattedPath(t, encodeUrl)
  }

  /** Two strings with the same head are equal exactly when their tails are. */
  lemma SameHeadCancels(head: string, a: string, b: string)
    ensures head + a == head + b <==> a == b
  {
    if head + a == head + b {
      assert a == (head + a)[|head|..];
      assert b == (head + b)[|head|..];
    }
  }

  /** `doesUrlRequireEncoding`: false without a record; otherwise it holds exactly when
      flipping the URL-encoding toggle changes the title. */
  predicate DoesUrlRequireEncoding(transaction: Option<HttpTransaction>, formattedPath: PathFormatter): (required: bool)
    ensures transaction.None? ==> !required
    ensures required <==>
      TransactionTitle(transaction, true, formattedPath) != TransactionTitle(transaction, false, formattedPath)
  {
    match transaction
    case None => false
    case Some(t) =>
      SameHeadCancels(TemplateText(t.httpMethod) + " ", formattedPath(t, true), formattedPath(t, false));
      formattedPath(t, true) != formattedPath(t, false)
  }

  /** `doesRequestBodyRequireEncoding`: only a record whose content type is at least as
      long as the form media type can require encoding. */
  predicate DoesRequestBodyRequireEncoding(transaction: Option<HttpTransaction>): (required: bool)
    ensures required ==>
      (transaction.Some? && transaction.value.requestContentType.Some? &&
       |FORM_URL_ENCODED| <= |transaction.value.requestContentType.value|)
  {
    if transaction.Some? && transaction.value.requestContentType.Some? &&
       ContainsIgnoreCase(transaction.value.requestContentType.value, FORM_URL_ENCODED)
    then
      ContainsNeedsRoom(transaction.value.requestContentType.value, FORM_URL_ENCODED);
      true
    else
      false
  }

  /** `formatRequestBody`: the body is shown formatted unless it is form-encoded and
      encoding is switched on. */
  function FormatRequestBody(requiresEncoding: bool, encodeUrl: bool): (format: bool)
    ensures !format <==> requiresEncoding && encodeUrl
  {
    !(requiresEncoding && encodeUrl)
  }

  /** A content type that carries the form media type with its parameters is detected. */
  lemma FormContentTypeWithCharsetDetected(t: HttpTransaction)
    ensures DoesRequestBodyRequireEncoding(Some(t.(requestContentType := Some("application/x-www-form-urlencoded; charset=UTF-8"))))
  {
    var contentType := "application/x-www-form-urlencoded; charset=UTF-8";
    assert contentType[12..][..|FORM_URL_ENCODED|] == FORM_URL_ENCODED;
    assert StartsWithIgnoreCase(contentType[12..], FORM_URL_ENCODED);
  }

  /** Whether a content type is form-encoded does not depend on its letter case. */
  lemma DetectionIgnoresLetterCase(t: HttpTransaction, contentType: string, otherCase: string)
    requires EqualsIgnoreCase(contentType, otherCase)
    ensures DoesRequestBodyRequireEncoding(Some(t.(requestContentType := Some(contentType)))) <==>
            DoesRequestBodyRequireEncoding(Some(t.(requestContentType := Some(otherCase))))
  {
    ContainsIgnoresCaseOfText(contentType, otherCase, FORM_URL_ENCODED);
    assert EqualsIgnoreCase(otherCase, contentType) by {
      forall i | 0 <= i < |otherCase| ensures SameIgnoringCase(otherCase[i], contentType[i]) {
        assert SameIgnoringCase(contentType[i], otherCase[i]);
      }
    }
    ContainsIgnoresCaseOfText(otherCase, contentType, FORM_URL_ENCODED);
  }

  /** Other media types, and records without a content type, are not form-encoded. */
  lemma OtherContentTypesNotDetected(t: HttpTransaction)
    ensures !DoesRequestBodyRequireEncoding(Some(t.(requestContentType := Some("application/json"))))
    ensures !DoesRequestBodyRequireEncoding(Some(t.(requestContentType := None)))
    ensures !DoesRequestBodyRequireEncoding(None)
  {
    if ContainsIgnoreCase("application/json", FORM_URL_ENCODED) {
      ContainsNeedsRoom("application/json", FORM_URL_ENCODED);
    }
  }

  /** The view-model classes a factory may be asked for. */
  datatype ViewModelClass = TransactionViewModelClass | OtherViewModelClass(name: string)

  class TransactionViewModel {
    const transactionId: int
    /** `RepositoryProvider.mockTransaction()`. */
    const mockRepository: MockRepository.MockHttpTransactionDatabaseRepository
    /** The value of `encodeUrl`. */
    var encodeUrl: bool

    constructor (transactionId: int, mockRepository: MockRepository.MockHttpTransactionDatabaseRepository)
      ensures this.transactionId == transactionId && this.mockRepository == mockRepository
      ensures !encodeUrl
    {
      this.transactionId := transactionId;
      this.mockRepository := mockRepository;
      encodeUrl := false;
    }

    method EncodeUrl(encode: bool)
      modifies this`encodeUrl
      ensures encodeUrl == encode
    {
      encodeUrl := encode;
    }

    method SwitchUrlEncoding()
      modifies this`encodeUrl
      ensures encodeUrl == !old(encodeUrl)
    {
      EncodeUrl(!encodeUrl);
    }

    /** `getMock`: no lookup at all for a record without a URL; otherwise the first mock
        stored for its URL. */
    function GetMock(transaction: HttpTransaction): (mock: Option<HttpTransaction>)
      reads mockRepository, mockRepository.dao
      ensures transaction.url.None? ==> mock.None?
      ensures mock.Some? ==> mock.value.url == transaction.url && mock.value in mockRepository.dao.rows
      ensures transaction.url.Some? && mock.None? ==>
        forall i :: 0 <= i < |mockRepository.dao.rows| ==> mockRepository.dao.rows[i].url != transaction.url
    {
      match transaction.url
      case None => None
      case Some(url) => mockRepository.GetMockedTransactionByUrl(url)
    }

    /** `writeMock`: stores the mocked body and flag. With no mock yet for the record's URL,
        the record itself takes the body and flag and is inserted; otherwise only the
        existing mock's body and flag are overwritten. Returns the caller's record as
        the call leaves it. */
    method WriteMock(transaction: HttpTransaction, mockedBody: string, shouldUseMock: bool)
      returns (caller: HttpTransaction)
      requires mockRepository.Valid()
      modifies mockRepository.dao
      ensures mockRepository.Valid()
      ensures old(GetMock(transaction)).None? ==>
        && caller == transaction.(responseBody := Some(mockedBody), shouldUseMock := shouldUseMock, id := caller.id)
        && ((mockRepository.dao.rows == old(mockRepository.dao.rows) + [caller]) ||
            (mockRepository.dao.rows == old(mockRepository.dao.rows) && caller.id == 0))
      ensures old(GetMock(transaction)).Some? ==>
        && caller == transaction
        && exists i :: MockRepository.FirstMatchAt(old(mockRepository.dao.rows), transaction.url.value, i) &&
             mockRepository.dao.rows == old(mockRepository.dao.rows)[i :=
               old(mockRepository.dao.rows)[i].(responseBody := Some(mockedBody), shouldUseMock := shouldUseMock)]
      ensures transaction.url.Some? &&
              (old(GetMock(transaction)).Some? || |mockRepository.dao.rows| > |old(mockRepository.dao.rows)|) ==>
        var mock := GetMock(transaction);
        mock.Some? && mock.value.responseBody == Some(mockedBody) && mock.value.shouldUseMock == shouldUseMock
      ensures transaction.url.Some? ==> forall other :: other != transaction.url.value ==>
        mockRepository.GetMockedTransactionByUrl(other) == old(mockRepository.GetMockedTransactionByUrl(other))
    {
      ghost var rows := mockRepository.dao.rows;
      var mock := GetMock(transaction);
      if mock.None? {
        caller := transaction.(responseBody := Some(mockedBody), shouldUseMock := shouldUseMock);
        caller := mockRepository.InsertTransaction(caller);
        if transaction.url.Some? && mockRepository.dao.rows != rows {
          MockRepository.LookupAfterAppend(rows, caller, transaction.url.value);
          forall other | other != transaction.url.value
            ensures MockRepository.MockFor(rows + [caller], other) == MockRepository.MockFor(rows, other)
          {
            MockRepository.LookupAfterAppend(rows, caller, other);
          }
        }
      } else {
        var url := transaction.url.value;
        ghost var i := MockRepository.FirstMatchExists(rows, url);
        MockRepository.MockForIsFirstMatch(rows, url, i);
        var updated := mock.value.(responseBody := Some(mockedBody), shouldUseMock := shouldUseMock);
        var _ := mockRepository.UpdateTransaction(updated);
        MockRepository.ReplaceByIdIsPointUpdate(rows, i, updated);
        MockRepository.LookupAfterReplace(rows, url, i, updated, url);
        forall other | other != url
          ensures MockRepository.MockFor(rows[i := updated], other) == MockRepository.MockFor(rows, other)
        {
          MockRepository.LookupAfterReplace(rows, url, i, updated, other);
        }
        caller := transaction;
      }
    }
  }

  class TransactionViewModelFactory {
    const transactionId: int

    /** The factory's id defaults to 0. */
    constructor ()
      ensures transactionId == 0
    {
      transactionId := 0;
    }

    constructor WithTransactionId(transactionId: int)
      ensures this.transactionId == transactionId
    {
      this.transactionId := transactionId;
    }

    /** `create`: builds a TransactionViewModel for its id, and refuses every other class
        with the `IllegalArgumentException` message. */
    method Create(modelClass: ViewModelClass, mockRepository: MockRepository.MockHttpTransactionDatabaseRepository)
      returns (viewModel: TransactionViewModel?, error: Option<string>)
      ensures modelClass.TransactionViewModelClass? <==> viewModel != null
      ensures modelClass.OtherViewModelClass? ==> error == Some("Cannot create " + modelClass.name)
      ensures viewModel != null ==>
        fresh(viewModel) && error.None? && viewModel.transactionId == transactionId && !viewModel.encodeUrl
    {
      if modelClass != TransactionViewModelClass {
        return null, Some("Cannot create " + modelClass.name);
      }
      viewModel := new TransactionViewModel(transactionId, mockRepository);
      error := None;
    }
  }
}
