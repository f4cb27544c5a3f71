/** `_prep_api_payload`: the query parameters of the call to the reseller, a fixed
    base part merged with the fields of one request. */
module Payload {
  import opened Operators
  import opened Requests
  import Decimal

  /** A parameter value: the source mixes strings and integers. */
  datatype Value = Str(s: string) | Int(n: int)

  /** The query parameters the relay may send; `Name()` is the key on the wire. */
  datatype Param =
    | WebServiceId | RedirectUrl | Count | Email | PackageId | BillId | PaymentId | Issuer
    | PaymentDetails | RedirectToPage | ScriptVersion | FirstOutputType | IsTarabord
    | SecondOutputType | ChargeKind | Nonce
    | Amount | Cellphone | Type
    | ProductId
    | Callback
  {
    function Name(): string {
      match this
      case WebServiceId => "data[webserviceId]"
      case RedirectUrl => "data[redirectUrl]"
      case Count => "data[count]"
      case Email => "data[email]"
      case PackageId => "data[packageId]"
      case BillId => "data[billId]"
      case PaymentId => "data[paymentId]"
      case Issuer => "data[issuer]"
      case PaymentDetails => "data[paymentDetails]"
      case RedirectToPage => "data[redirectToPage]"
      case ScriptVersion => "data[scriptVersion]"
      case FirstOutputType => "data[firstOutputType]"
      case IsTarabord => "data[isTarabord]"
      case SecondOutputType => "data[secondOutputType]"
      case ChargeKind => "data[ChargeKind]"
      case Nonce => "data[nonce]"
      case Amount => "data[amount]"
      case Cellphone => "data[cellphone]"
      case Type => "data[type]"
      case ProductId => "data[productId]"
      case Callback => "callback"
    }
  }

  const RedirectUrlValue: string := "https://domain.com/charge.php"
  const ScriptVersionValue: string := "Script-fluent-1.7"
  const NonceMin: int := 1111111111111
  const NonceMax: int := 9999999999999

  const BaseKeys: set<Param> := {
    WebServiceId, RedirectUrl, Count, Email, PackageId, BillId, PaymentId, Issuer,
    PaymentDetails, RedirectToPage, ScriptVersion, FirstOutputType, IsTarabord,
    SecondOutputType, ChargeKind, Nonce}

  const ChargeKeys: set<Param> := {Amount, Cellphone, Type}

  /** The value of a base parameter: constants but for the web-service id and
      the nonce. */
  function BaseValue(k: Param, webServiceId: string, nonce: int): Value
    requires k in BaseKeys
  {
    match k
    case WebServiceId => Str(webServiceId)
    case RedirectUrl => Str(RedirectUrlValue)
    case Count => Int(1)
    case PaymentDetails | RedirectToPage => Str("true")
    case ScriptVersion => Str(ScriptVersionValue)
    case FirstOutputType => Str("json")
    case IsTarabord => Str("false")
    case SecondOutputType => Str("get")
    case Nonce => Int(nonce)
    case Email | PackageId | BillId | PaymentId | Issuer | ChargeKind => Str("")
    case Amount | Cellphone | Type | ProductId | Callback => assert false; Str("")
  }

  /** The part of the parameters that is the same for every request but for the
      configured web-service id and the freshly drawn nonce. */
  function BaseParams(webServiceId: string, nonce: int): map<Param, Value>
    requires NonceMin <= nonce <= NonceMax
  {
    map k | k in BaseKeys :: BaseValue(k, webServiceId, nonce)
  }

  /** The fields that come from the request. */
  function ChargeParams(amount: int, phone: string, op: Operator): map<Param, Value>
  {
    map[Amount := Int(amount), Cellphone := Str(phone), Type := Str(op.Code())]
  }

  /** `CC-<operator>-<amount>`, the product bought with a PIN code. */
  function ProductName(op: Operator, amount: int): string {
    "CC-" + op.Code() + "-" + Decimal.IntToDecimal(amount)
  }

  /** `_prep_api_payload`: base and charge parameters merged (the charge part wins
      on a shared key), then the product id added for a PIN code purchase. The
      nonce, drawn at random in the source, is a parameter. */
  function PrepApiPayload(webServiceId: string, nonce: int, amount: int, phone: string,
                          op: Operator, chargeType: ChargeType): map<Param, Value>
    requires NonceMin <= nonce <= NonceMax
  {
    var merged := BaseParams(webServiceId, nonce) + ChargeParams(amount, phone, op);
    if chargeType.Name() == "pincode" then merged[ProductId := Str(ProductName(op, amount))]
    else merged
  }

  /** Distinct parameters go out under distinct keys. */
  lemma NamesDistinct(a: Param, b: Param)
    requires a.Name() == b.Name()
    ensures a == b
  {
  }

  /** The base, charge and product-id keys are pairwise distinct, so the merge and
      the insertion overwrite nothing. */
  lemma KeySetsDisjoint()
    ensures BaseKeys !! ChargeKeys
    ensures ProductId !in BaseKeys + ChargeKeys
  {
  }

  /** The payload is the merge of the base and charge parts, with the product id
      added exactly for PIN code purchases. */
  lemma PayloadShape(webServiceId: string, nonce: int, amount: int, phone: string,
                     op: Operator, chargeType: ChargeType)
    requires NonceMin <= nonce <= NonceMax
    ensures PrepApiPayload(webServiceId, nonce, amount, phone, op, chargeType)
        == var merged := BaseParams(webServiceId, nonce) + ChargeParams(amount, phone, op);
           if chargeType == Pincode then merged[ProductId := Str(ProductName(op, amount))] else merged
  {
    assert (chargeType.Name() == "pincode") == (chargeType == Pincode);
  }

  /** The payload holds exactly the base keys, the charge keys, and the product
      id for a PIN code purchase. */
  lemma PayloadKeys(webServiceId: string, nonce: int, amount: int, phone: string,
                    op: Operator, chargeType: ChargeType)
    requires NonceMin <= nonce <= NonceMax
    ensures PrepApiPayload(webServiceId, nonce, amount, phone, op, chargeType).Keys
        == BaseKeys + ChargeKeys + (if chargeType == Pincode then {ProductId} else {})
  {
    PayloadShape(webServiceId, nonce, amount, phone, op, chargeType);
    assert BaseParams(webServiceId, nonce).Keys == BaseKeys;
    assert ChargeParams(amount, phone, op).Keys == ChargeKeys;
  }

  /** Every base parameter reaches the payload with its base value: the charge
      part and the product id overwrite none of them, and removing them leaves
      the base part exactly. */
  lemma PayloadKeepsBase(webServiceId: string, nonce: int, amount: int, phone: string,
                         op: Operator, chargeType: ChargeType)
    requires NonceMin <= nonce <= NonceMax
    ensures PrepApiPayload(webServiceId, nonce, amount, phone, op, chargeType) - (ChargeKeys + {ProductId})
        == BaseParams(webServiceId, nonce)
  {
    var base := BaseParams(webServiceId, nonce);
    var rest := PrepApiPayload(webServiceId, nonce, amount, phone, op, chargeType) - (ChargeKeys + {ProductId});
    PayloadShape(webServiceId, nonce, amount, phone, op, chargeType);
    KeySetsDisjoint();
    assert rest.Keys == base.Keys;
  }

  /** The values of the base part: constants but for the configured web-service
      id and the nonce. */
  lemma BaseFields(webServiceId: string, nonce: int)
    requires NonceMin <= nonce <= NonceMax
    ensures var b := BaseParams(webServiceId, nonce);
      b[WebServiceId] == Str(webServiceId) && b[Nonce] == Int(nonce)
      && b[RedirectUrl] == Str("https://domain.com/charge.php") && b[Count] == Int(1)
      && b[PaymentDetails] == Str("true") && b[RedirectToPage] == Str("true")
      && b[ScriptVersion] == Str("Script-fluent-1.7") && b[FirstOutputType] == Str("json")
      && b[IsTarabord] == Str("false") && b[SecondOutputType] == Str("get")
      && b[Email] == b[PackageId] == b[BillId] == b[PaymentId] == b[Issuer] == b[ChargeKind] == Str("")
  {
  }

  /** The configured web-service id and the drawn nonce are sent as given, the
      nonce within its range. */
  lemma PayloadIdAndNonce(webServiceId: string, nonce: int, amount: int, phone: string,
                          op: Operator, chargeType: ChargeType)
    requires NonceMin <= nonce <= NonceMax
    ensures var p := PrepApiPayload(webServiceId, nonce, amount, phone, op, chargeType);
      WebServiceId in p && p[WebServiceId] == Str(webServiceId)
      && Nonce in p && p[Nonce] == Int(nonce) && NonceMin <= p[Nonce].n <= NonceMax
  {
    PayloadShape(webServiceId, nonce, amount, phone, op, chargeType);
  }

  /** The request's amount, phone and operator code are sent as given. */
  lemma PayloadCarriesRequest(webServiceId: string, nonce: int, amount: int, phone: string,
                              op: Operator, chargeType: ChargeType)
    requires NonceMin <= nonce <= NonceMax
    ensures PrepApiPayload(webServiceId, nonce, amount, phone, op, chargeType)[Amount] == Int(amount)
    ensures PrepApiPayload(webServiceId, nonce, amount, phone, op, chargeType)[Cellphone] == Str(phone)
    ensures PrepApiPayload(webServiceId, nonce, amount, phone, op, chargeType)[Type] == Str(op.Code())
  {
  }

  /** A product id is sent exactly for PIN code purchases, and names the operator
      and the amount. */
  lemma ProductIdOnlyForPincode(webServiceId: string, nonce: int, amount: int, phone: string,
                                op: Operator, chargeType: ChargeType)
    requires NonceMin <= nonce <= NonceMax
    ensures ProductId in PrepApiPayload(webServiceId, nonce, amount, phone, op, chargeType)
        <==> chargeType == Pincode
    ensures chargeType == Pincode ==>
      PrepApiPayload(webServiceId, nonce, amount, phone, op, chargeType)[ProductId]
        == Str("CC-" + op.Code() + "-" + Decimal.IntToDecimal(amount))
  {
    PayloadShape(webServiceId, nonce, amount, phone, op, chargeType);
    assert BaseParams(webServiceId, nonce).Keys == BaseKeys;
    KeySetsDisjoint();
  }

  /** The product id splits back into its operator code and its amount. */
  lemma ProductNameParts(op: Operator, amount: int)
    ensures var s, c := ProductName(op, amount), op.Code();
      |s| == 4 + |c| + |Decimal.IntToDecimal(amount)|
      && s[..3] == "CC-" && s[3..3 + |c|] == c && s[3 + |c|] == '-'
      && s[4 + |c|..] == Decimal.IntToDecimal(amount)
  {
  }

  /** Distinct operator and amount pairs give distinct product ids. */
  lemma ProductNameInjective(op1: Operator, amount1: int, op2: Operator, amount2: int)
    requires ProductName(op1, amount1) == ProductName(op2, amount2)
    ensures op1 == op2 && amount1 == amount2
  {
    var s := ProductName(op1, amount1);
    var c1, c2 := op1.Code(), op2.Code();
    ProductNameParts(op1, amount1);
    ProductNameParts(op2, amount2);
    // no operator code contains '-', so the second '-' of the id ends the code
    assert |c1| == |c2|;
    CodeInjective(op1, op2);
    Decimal.IntToDecimalInjective(amount1, amount2);
  }

  lemma ProductNameExample()
    ensures ProductName(Mtn, 5000) == "CC-MTN-5000"
  {
    assert Decimal.NatToDecimal(5) == "5";
    assert Decimal.NatToDecimal(50) == "50";
    assert Decimal.NatToDecimal(500) == "500";
    assert Decimal.IntToDecimal(5000) == "5000";
  }

  /** MTN with 5000 on a PIN code purchase buys `CC-MTN-5000`. */
  lemma ProductIdExample(webServiceId: string, nonce: int, phone: string)
    requires NonceMin <= nonce <= NonceMax
    ensures PrepApiPayload(webServiceId, nonce, 5000, phone, Mtn, Pincode)[ProductId] == Str("CC-MTN-5000")
  {
    ProductIdOnlyForPincode(webServiceId, nonce, 5000, phone, Mtn, Pincode);
    ProductNameExample();
  }
}
