/** reference.py: the carrier's create-shipment error table, the key-type
    identifiers of the query operation, and `CallResult`, whose equality
    compares a carrier status flag with an expected one. */
module Reference {
  import opened Wrappers
  import opened Python

  /** One entry of the error table. The source writes each entry as a tuple
      (status, English message, Turkish message); one entry has no status. */
  datatype ErrorEntry =
    | WithStatus(status: HttpStatus, english: string, turkish: string)
    | WithoutStatus(english: string, turkish: string)

  /** ERRORS_CREATE_SHIPMENT: carrier error code to messages. */
  const ErrorsCreateShipment: map<int, ErrorEntry> :=
    map[
      936 := WithStatus(ImATeapot418, "Unexpected error—please contact Yurtiçi Kargo", "Beklenmeyen bir hata oluştu. Yurtiçi Kargo ile irtibata geçiniz"),
      80859 := WithStatus(NotFound404, "Shipment ID not found", "Kargo anahtarı bulunamadı"),
      82500 := WithStatus(NotAcceptable406, "Shipment ID too long", "Kargo anahtarı belirtilen uzunluktan fazla"),
      60020 := WithStatus(Conflict409, "A shipment with this shipment ID already exists", "Belirtilen kargo anahtarı sistemde mevcut"),
      80057 := WithStatus(NotFound404, "Job ID not found", "Yurtiçi Kargo talep kodu bulunamadı"),
      60017 := WithStatus(NotFound404, "Invoice ID not found", "Fatura anahtarı bulunamadı"),
      82501 := WithStatus(NotAcceptable406, "Invoice ID too long", "Fatura anahtarı belirtilen uzunluktan fazla"),
      60018 := WithStatus(NotAcceptable406, "Recipient name not provided", "Alıcı adı bulunamadı"),
      82503 := WithStatus(NotAcceptable406, "Recipient name too long", "Alıcı adı belirtilen uzunluktan fazla"),
      60019 := WithStatus(NotAcceptable406, "Recipient address not provided", "Alıcı adresi bulunamadı"),
      82502 := WithStatus(NotAcceptable406, "Recipient address too long", "Alıcı adresi belirtilen uzunluktan fazla"),
      82505 := WithStatus(NotAcceptable406, "COD – Collection amount not provided", "Tahsilatlı Teslimat – Ödeme Tutarı bulunamadı"),
      82506 := WithStatus(NotAcceptable406, "COD - Collection amount too big", "Tahsilatlı Teslimat – Ödeme Tutarı belirtilen uzunluktan fazla"),
      82507 := WithStatus(NotAcceptable406, "COD - Invoice number not provided", "Tahsilatlı Teslimat – Fatura No. bulunamadı"),
      82508 := WithStatus(NotAcceptable406, "COD - Invoice number too long", "Tahsilatlı Teslimat – Fatura No. belirtilen uzunluktan fazla"),
      82509 := WithStatus(NotAcceptable406, "COD - Pay over time - Installments not provided", "Tahsilatlı Teslimat – Müşteri taksit seçimi bulunamadı"),
      82510 := WithStatus(NotAcceptable406, "COD - Pay over time - Too many installments", "Tahsilatlı Teslimat – Müşteri taksit seçimi belirtilen uzunluktan fazla"),
      82511 := WithStatus(NotAcceptable406, "COD - Pay over time - Criteria not provided", "Tahsilatlı Teslimat – Taksit Uygulama Kriteri bulunamadı"),
      82512 := WithStatus(NotAcceptable406, "COD - Your contract does not permit the payment method specified", "Tahsilatlı Teslimat – Müşteri Sözleşmesinde tanımlı ödeme tipi ile gönderdiğiniz ödeme tipi uyuşmamaktadır"),
      82513 := WithStatus(NotAcceptable406, "COD - Invalid payment method", "Hatalı ödeme tipi"),
      82514 := WithoutStatus("COD - Invalid invoice preference", "Hatalı fatura tipi"),
      82515 := WithStatus(NotAcceptable406, "Invalid recipient e-mail address", "Hatalı e-mail adresi"),
      82516 := WithStatus(NotAcceptable406, "Invalid recipient phone number", "Hatalı telefon bilgisi "),
      82517 := WithStatus(NotAcceptable406, "Invalid formatting", "Hatalı format bilgisi, parametreye ait değer belirtilen formatta olmalıdır"),
      82518 := WithStatus(NotAcceptable406, "COD - Pay over time - Invalid criteria", "Tahsilatlı Teslimat – Taksit uygulama kriteri parametresi hatalı")
    ]

  /** Key types for queryShipment. */
  const IdentifierShipmentId: int := 0
  const IdentifierInvoiceId: int := 1

  /** `CallResult`: an expected status flag. Its fields are set once, by the constructor. */
  datatype CallResult = CallResult(outFlag: string, successful: bool)

  const Successful: CallResult := CallResult("0", true)

  /** The right-hand operand of `CallResult.__eq__`, by the branch it takes:
      a bare scalar `v` (a `str` or `int` takes the direct branch,
      `type(other) in [str, int]`; None takes the attribute branch and has no
      `outFlag`), an object carrying an `outFlag` attribute, or any other
      object without one (a list, a dict, a bool). */
  datatype Operand =
    | Flag(v: Scalar)
    | WithOutFlag(outFlag: Scalar)
    | WithoutOutFlag

  /** The operand a bare scalar makes: a string or an integer is compared
      directly, None falls into the attribute branch. */
  function OperandOf(v: Scalar): (o: Operand)
    ensures v.PyNone? <==> o.WithoutOutFlag?
    ensures !v.PyNone? ==> o == Flag(v)
  {
    if v.PyNone? then WithoutOutFlag else Flag(v)
  }

  /** `self == other`. Reading `outFlag` off an object that has none raises
      AttributeError. */
  function Equals(self: CallResult, other: Operand): (r: Result<bool, Exception>)
    ensures r.Failure? <==> other.WithoutOutFlag? || other == Flag(PyNone)
    ensures r.Failure? ==> r.error == AttributeError
  {
    match other
    case Flag(v) =>
      if v.PyNone? then Failure(AttributeError) else Success(Str(v) == self.outFlag)
    case WithOutFlag(flag) => Success(Str(flag) == self.outFlag)
    case WithoutOutFlag => Failure(AttributeError)
  }

  /** Equality holds exactly when the operand's string form (the operand
      itself, or its `outFlag`) is the expected flag; in every other case it
      is False or raises. */
  lemma EqualsTrueIff(self: CallResult, other: Operand)
    ensures Equals(self, other) == Success(true) <==>
      (other.Flag? && (other.v.PyStr? || other.v.PyInt?) && Str(other.v) == self.outFlag) ||
      (other.WithOutFlag? && Str(other.outFlag) == self.outFlag)
  {
  }

  /** SUCCESSFUL matches the string "0" and the integer 0, and nothing else
      among strings and integers. */
  lemma SuccessfulMatchesZero(v: Scalar)
    requires !v.PyNone?
    ensures Equals(Successful, Flag(v)) == Success(v == PyStr("0") || v == PyInt(0))
  {
    if v.PyInt? {
      IntStrIsZeroIff(v.n);
    }
  }

  /** `SUCCESSFUL != "1"`, while `SUCCESSFUL == "0"` and `SUCCESSFUL == 0`. */
  lemma SuccessfulExamples()
    ensures Equals(Successful, Flag(PyStr("1"))) == Success(false)
    ensures Equals(Successful, Flag(PyStr("0"))) == Success(true)
    ensures Equals(Successful, Flag(PyInt(0))) == Success(true)
  {
    SuccessfulMatchesZero(PyInt(0));
  }

  /** Entry 82514 alone lacks the HTTP status component; every other listed
      code carries one, and none of them is 200. */
  lemma OnlyInvoicePreferenceLacksStatus()
    ensures forall code :: code in ErrorsCreateShipment ==>
      (ErrorsCreateShipment[code].WithoutStatus? <==> code == 82514)
    ensures forall code :: code in ErrorsCreateShipment && ErrorsCreateShipment[code].WithStatus? ==>
      ErrorsCreateShipment[code].status != Ok200
  {
  }

  lemma ShipmentIdNotFoundEntry()
    ensures 80859 in ErrorsCreateShipment
    ensures ErrorsCreateShipment[80859] == WithStatus(NotFound404, "Shipment ID not found", "Kargo anahtarı bulunamadı")
  {
  }
}
