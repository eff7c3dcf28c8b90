/** The bank-transfer page (src/app/thanh-toan/page.tsx): on mount it asks
    for the active bank account and either keeps the account for display or
    sets a message saying why none can be shown. The service's answer is a
    parameter. */
module Payment {
  import opened Wrappers
  import opened Api

  /** `BankAccount`; `bankName` is `None` when the field is absent or null. */
  datatype BankAccount = BankAccount(id: int, bankName: Option<string>, accountNumber: string,
                                     accountHolder: string, qrCodeImageUrl: Option<string>, status: string)

  /** One value where an account is expected: an account record, or a
      falsy value (null, undefined). */
  datatype BankData = Record(account: BankAccount) | Missing

  /** The service answers with one account or with an array of them. */
  datatype BankPayload = Single(data: BankData) | List(items: seq<BankData>)

  const LoadFailedMessage := "Kh\U{00F4}ng th\U{1EC3} t\U{1EA3}i th\U{00F4}ng tin t\U{00E0}i kho\U{1EA3}n ng\U{00E2}n h\U{00E0}ng"
  const NoAccountMessage := "Kh\U{00F4}ng c\U{00F3} t\U{00E0}i kho\U{1EA3}n ng\U{00E2}n h\U{00E0}ng"
  const InvalidDataMessage := "D\U{1EEF} li\U{1EC7}u kh\U{00F4}ng h\U{1EE3}p l\U{1EC7}"
  const InactiveMessage := "Kh\U{00F4}ng c\U{00F3} t\U{00E0}i kho\U{1EA3}n ng\U{00E2}n h\U{00E0}ng ho\U{1EA1}t \U{0111}\U{1ED9}ng"
  const NotFoundMessage := "Kh\U{00F4}ng t\U{00EC}m th\U{1EA5}y th\U{00F4}ng tin t\U{00E0}i kho\U{1EA3}n"

  /** The value the checks look at: the payload itself, or the first element
      of an array; `None` for an empty array (the `[]` of a failed request
      included). */
  function Candidate(data: ApiData<BankPayload>): (c: Option<BankData>)
    ensures data.Data? && data.value.Single? ==> c == Some(data.value.data)
    ensures data.Data? && data.value.List? && data.value.items != [] ==> c == Some(data.value.items[0])
    ensures c.None? <==> data == EmptyArray || data == Data(List([]))
  {
    match data
    case EmptyArray => None
    case Data(Single(d)) => Some(d)
    case Data(List(items)) => if items == [] then None else Some(items[0])
  }

  /** A record the page will show: present, with a non-empty bank name. */
  predicate WellFormed(d: BankData) {
    d.Record? && d.account.bankName.Some? && d.account.bankName.value != ""
  }

  /** The outcome of the checks: an account to show, or the message set. */
  datatype Selection = Selected(account: BankAccount) | Refused(message: string)

  /** The decision of `fetchBankAccount`, in the order of its checks. An
      account is selected exactly when there is no error, the candidate is
      well formed and its status is exactly "ACTIVE". */
  function SelectBankAccount(response: ApiResponse<BankPayload>): (r: Selection)
    ensures r.Selected? <==>
              !HasError(response.error) && Candidate(response.data).Some?
              && WellFormed(Candidate(response.data).value) && Candidate(response.data).value.account.status == "ACTIVE"
    ensures r.Selected? ==> Candidate(response.data) == Some(Record(r.account))
    ensures HasError(response.error) ==> r == Refused(LoadFailedMessage)
    ensures !HasError(response.error) && Candidate(response.data).None? ==> r == Refused(NoAccountMessage)
    ensures !HasError(response.error) && Candidate(response.data).Some? && !WellFormed(Candidate(response.data).value)
            ==> r == Refused(InvalidDataMessage)
    ensures (!HasError(response.error) && Candidate(response.data).Some? && WellFormed(Candidate(response.data).value)
             && Candidate(response.data).value.account.status != "ACTIVE") ==> r == Refused(InactiveMessage)
    ensures r.Refused? ==> r.message in {LoadFailedMessage, NoAccountMessage, InvalidDataMessage, InactiveMessage}
  {
    if HasError(response.error) then Refused(LoadFailedMessage)
    else match Candidate(response.data)
      case None => Refused(NoAccountMessage)
      case Some(d) =>
        if !WellFormed(d) then Refused(InvalidDataMessage)
        else if d.account.status == "ACTIVE" then Selected(d.account)
        else Refused(InactiveMessage)
  }

  /** Only the first element of an array is looked at: the rest never
      changes the outcome, and the array decides as its first element
      would alone. */
  lemma OnlyFirstConsidered(first: BankData, rest: seq<BankData>, error: Option<string>)
    ensures SelectBankAccount(ApiResponse(Data(List([first] + rest)), error))
            == SelectBankAccount(ApiResponse(Data(Single(first)), error))
  {
    assert ([first] + rest)[0] == first;
  }

  /** An active account behind an inactive first element is not found. */
  lemma InactiveFirstHidesActive(a: BankAccount, b: BankAccount)
    requires WellFormed(Record(a)) && a.status != "ACTIVE"
    ensures SelectBankAccount(ApiResponse(Data(List([Record(a), Record(b)])), None)) == Refused(InactiveMessage)
  {
    OnlyFirstConsidered(Record(a), [Record(b)], None);
  }

  /** The status test is exact: a lower-case "active" is refused. */
  lemma StatusIsCaseSensitive(a: BankAccount)
    requires WellFormed(Record(a)) && a.status == "active"
    ensures SelectBankAccount(ApiResponse(Data(Single(Record(a))), None)) == Refused(InactiveMessage)
  {
    assert "active" != "ACTIVE";
  }

  /** Each refusal names its own cause: the four messages are distinct. */
  lemma RefusalMessagesDistinct()
    ensures |{LoadFailedMessage, NoAccountMessage, InvalidDataMessage, InactiveMessage}| == 4
  {
    assert LoadFailedMessage[6] != NoAccountMessage[6];
    assert NoAccountMessage != InactiveMessage by {
      assert |NoAccountMessage| != |InactiveMessage|;
    }
    assert LoadFailedMessage != InactiveMessage by {
      assert LoadFailedMessage[6] != InactiveMessage[6];
    }
    assert InvalidDataMessage[0] != LoadFailedMessage[0];
    assert InvalidDataMessage[0] != NoAccountMessage[0];
    assert InvalidDataMessage[0] != InactiveMessage[0];
  }

  /** What the page draws. */
  datatype View = LoadingView | ErrorView(message: string) | AccountView(account: BankAccount)

  /** The page's state. */
  class PaymentPage {
    var bankAccount: Option<BankAccount>
    var isLoading: bool
    var error: Option<string>

    constructor ()
      ensures bankAccount == None && isLoading && error == None
    {
      bankAccount := None;
      isLoading := true;
      error := None;
    }

    /** `fetchBankAccount` with the service's `response`: the checks run with
        early returns, reassigning the value under test when an array came
        back; the account or the message is set, and loading ends. */
    method FetchBankAccount(response: ApiResponse<BankPayload>)
      modifies this
      ensures !isLoading
      ensures var s := SelectBankAccount(response);
              if s.Selected? then bankAccount == Some(s.account) && error == old(error)
              else error == Some(s.message) && bankAccount == old(bankAccount)
      ensures old(bankAccount).None? && old(error).None? ==> (bankAccount.Some? <==> error.None?)
    {
      isLoading := true;
      if HasError(response.error) {
        error := Some(LoadFailedMessage);
        isLoading := false;
        return;
      }
      if response.data == EmptyArray {
        error := Some(NoAccountMessage);
        isLoading := false;
        return;
      }
      var bankData := response.data.value;
      var candidate: BankData;
      if bankData.List? {
        if bankData.items == [] {
          error := Some(NoAccountMessage);
          isLoading := false;
          return;
        }
        candidate := bankData.items[0];
      } else {
        candidate := bankData.data;
      }
      if candidate.Missing? || candidate.account.bankName.None? || candidate.account.bankName.value == "" {
        error := Some(InvalidDataMessage);
        isLoading := false;
        return;
      }
      if candidate.account.status == "ACTIVE" {
        bankAccount := Some(candidate.account);
      } else {
        error := Some(InactiveMessage);
      }
      isLoading := false;
    }

    /** The spinner while loading; then the message (or "not found") when
        there is an error or no account; otherwise the account. */
    function Render(): (v: View)
      reads this
      ensures v.LoadingView? <==> isLoading
      ensures v.AccountView? <==> !isLoading && !HasError(error) && bankAccount.Some?
      ensures v.AccountView? ==> v.account == bankAccount.value
      ensures v.ErrorView? ==> v.message == if HasError(error) then error.value else NotFoundMessage
    {
      if isLoading then LoadingView
      else if HasError(error) || bankAccount.None? then ErrorView(if HasError(error) then error.value else NotFoundMessage)
      else AccountView(bankAccount.value)
    }
  }

  /** Every refusal message is non-empty, so after a refused fetch the
      error view shows that message rather than the not-found text. */
  lemma RefusalIsShown(response: ApiResponse<BankPayload>)
    ensures var s := SelectBankAccount(response);
            s.Refused? ==> HasError(Some(s.message))
  {
    var s := SelectBankAccount(response);
    if s.Refused? {
      assert s.message[0] == 'K' || s.message[0] == 'D';
    }
  }
}
