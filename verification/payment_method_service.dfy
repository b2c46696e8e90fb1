/** PaymentMethodServiceImpl: payment methods stored by id, validated on
    every create and update, with every failure turned into a response. */
module PaymentMethodService {
  import opened Common

  /** BANK_TRANSFER and E_WALLET are the two types the validator constrains;
      every other constant of the enum behaves alike, as OtherType. */
  datatype PaymentType = BankTransfer | EWallet | OtherType

  datatype PaymentMethod = PaymentMethod(
    id: Uuid,
    name: Option<string>,
    paymentType: Option<PaymentType>,
    provider: Option<string>,
    accountNumber: Option<string>,
    accountName: Option<string>)

  /** CreateAndUpdatePaymentMethodRequest */
  datatype PaymentRequest = PaymentRequest(
    name: Option<string>,
    paymentType: Option<PaymentType>,
    provider: Option<string>,
    accountNumber: Option<string>,
    accountName: Option<string>)

  datatype PaymentError = NullField | BankNumberLength | VirtualNumberLength | NotFound

  const NOT_FOUND_MESSAGE: string := "Payment method not found"

  function PaymentMessage(e: PaymentError): string
  {
    match e
    case NullField => "All fields must be non-null"
    case BankNumberLength => "Bank account number must be 10–16 digits"
    case VirtualNumberLength => "Virtual account number must be 10–23 digits"
    case NotFound => NOT_FOUND_MESSAGE
  }

  predicate AllPresent(m: PaymentMethod)
  {
    m.name.Some? && m.paymentType.Some? && m.provider.Some? && m.accountNumber.Some? && m.accountName.Some?
  }

  /** The account-number length a type allows, as inclusive bounds. */
  predicate LengthFits(t: PaymentType, length: int)
  {
    match t
    case BankTransfer => 10 <= length <= 16
    case EWallet => 10 <= length <= 23
    case OtherType => true
  }

  /** A payment method that validate lets through. */
  predicate WellFormed(m: PaymentMethod)
  {
    AllPresent(m) && LengthFits(m.paymentType.value, |m.accountNumber.value|)
  }

  /** validate: the null check first, then the length rule of the type. */
  function Validate(m: PaymentMethod): (r: Outcome<PaymentError>)
    ensures r.Pass? <==> WellFormed(m)
    ensures !AllPresent(m) <==> r == Fail(NullField)
    ensures r == Fail(BankNumberLength) <==>
              AllPresent(m) && m.paymentType.value == BankTransfer
              && (|m.accountNumber.value| < 10 || |m.accountNumber.value| > 16)
    ensures r == Fail(VirtualNumberLength) <==>
              AllPresent(m) && m.paymentType.value == EWallet
              && (|m.accountNumber.value| < 10 || |m.accountNumber.value| > 23)
    ensures r != Fail(NotFound)
  {
    if !AllPresent(m) then Fail(NullField)
    else
      var length := |m.accountNumber.value|;
      var t := m.paymentType.value;
      if t == BankTransfer && (length < 10 || length > 16) then Fail(BankNumberLength)
      else if t == EWallet && (length < 10 || length > 23) then Fail(VirtualNumberLength)
      else Pass
  }

  /** The same account number is judged differently by type: ten to sixteen
      characters suit both, seventeen to twenty-three only an e-wallet. */
  lemma WalletAllowsLongerNumbers(m: PaymentMethod)
    requires AllPresent(m) && 17 <= |m.accountNumber.value| <= 23
    ensures Validate(m.(paymentType := Some(EWallet))).Pass?
    ensures Validate(m.(paymentType := Some(BankTransfer))) == Fail(BankNumberLength)
  {
  }

  /** fromRequest, with the id the save assigns. */
  function FromRequest(id: Uuid, request: PaymentRequest): PaymentMethod
  {
    PaymentMethod(id, request.name, request.paymentType, request.provider,
                  request.accountNumber, request.accountName)
  }

  /** handle: a result becomes a successful response carrying the data, a
      failure a response with success=false, the error's message and no
      data. */
  function Handle<T>(r: Result<T, PaymentError>, okMessage: string): (resp: Response<T>)
    ensures resp.success <==> r.Ok?
    ensures resp.data.Some? <==> r.Ok?
    ensures r.Ok? ==> resp.message == okMessage && resp.data.value == r.value
    ensures r.Err? ==> resp.message == PaymentMessage(r.error)
  {
    match r
    case Ok(v) => Response(true, okMessage, Some(v))
    case Err(e) => Response(false, PaymentMessage(e), None)
  }

  class PaymentMethodService {
    var methods: map<Uuid, PaymentMethod>

    /** Every stored method is filed under its id and passes validate. */
    ghost predicate Valid()
      reads this
    {
      forall k :: k in methods ==> methods[k].id == k && WellFormed(methods[k])
    }

    constructor ()
      ensures Valid() && methods == map[]
    {
      methods := map[];
    }

    /** readDetails */
    function ReadDetails(id: Uuid): (resp: Response<PaymentMethod>)
      reads this
      ensures resp.success <==> id in methods
      ensures resp.success ==> resp.data == Some(methods[id])
      ensures !resp.success ==> resp.message == NOT_FOUND_MESSAGE && resp.data.None?
    {
      Handle(if id in methods then Ok(methods[id]) else Err(NotFound),
             "Payment method retrieved successfully")
    }

    /** create: validated before it is saved, so an invalid method is never
        stored. `freshId` is the generated id. */
    method Create(request: PaymentRequest, freshId: Uuid) returns (resp: Response<PaymentMethod>)
      requires Valid() && freshId !in methods
      modifies this
      ensures Valid()
      ensures var m := FromRequest(freshId, request);
              && (resp.success <==> WellFormed(m))
              && (resp.success ==> methods == old(methods)[freshId := m] && resp.data == Some(m))
              && (!resp.success ==> methods == old(methods) && resp.data.None?
                                    && resp.message == PaymentMessage(Validate(m).error))
    {
      var candidate := FromRequest(freshId, request);
      var check := Validate(candidate);
      if check.Fail? {
        return Handle<PaymentMethod>(Err(check.error), "");
      }
      methods := methods[freshId := candidate];
      resp := Handle(Ok(candidate), "Payment method created successfully");
    }

    /** update: the five fields are overwritten, then validated; only a valid
        result is saved. */
    method Update(id: Uuid, request: PaymentRequest) returns (resp: Response<PaymentMethod>)
      requires Valid()
      modifies this
      ensures Valid()
      ensures id !in old(methods) ==> !resp.success && resp.message == NOT_FOUND_MESSAGE
      ensures id in old(methods) ==>
                var m := FromRequest(id, request);
                && (resp.success <==> WellFormed(m))
                && (resp.success ==> methods == old(methods)[id := m] && resp.data == Some(m))
                && (!resp.success ==> resp.message == PaymentMessage(Validate(m).error))
      ensures !resp.success ==> methods == old(methods) && resp.data.None?
    {
      if id !in methods {
        return Handle<PaymentMethod>(Err(NotFound), "");
      }
      var updated := methods[id].(name := request.name, paymentType := request.paymentType,
                                  provider := request.provider, accountNumber := request.accountNumber,
                                  accountName := request.accountName);
      var check := Validate(updated);
      if check.Fail? {
        return Handle<PaymentMethod>(Err(check.error), "");
      }
      methods := methods[id := updated];
      resp := Handle(Ok(updated), "Payment method updated successfully");
    }

    /** delete: a missing id fails before anything is removed. */
    method Delete(id: Uuid) returns (resp: Response<()>)
      requires Valid()
      modifies this
      ensures Valid()
      ensures resp.success <==> id in old(methods)
      ensures resp.success ==> methods == old(methods) - {id} && resp.message == "Payment method deleted successfully"
      ensures !resp.success ==> methods == old(methods) && resp.message == NOT_FOUND_MESSAGE
    {
      if id !in methods {
        return Handle<()>(Err(NotFound), "");
      }
      methods := methods - {id};
      resp := Response(true, "Payment method deleted successfully", None);
    }
  }
}
