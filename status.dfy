/**
  The gateway's result codes (`Zibal.Status`): a closed set of named outcomes,
  each with a fixed integer wire code. `paid` carries whether the payment was
  verified, so 22 cases cover 23 codes.
 */
module StatusCode {
  import opened Wrappers

  datatype Status =
    // verify status
    | Waiting
    | InternalError
    | Paid(isVerified: bool)
    | CancelledByUser
    | InvalidCardNumber
    | InsufficientCredit
    | WrongPassword
    | ExceededRequestLimit
    | ExceededPaymentLimit
    | ExceededPaymentAmount
    | InvalidCardIssuer
    | SwitchFailure
    | InaccessibleCard
    // result status
    | Confirmed
    | MerchantNotFound
    | MerchantInactive
    | MerchantInvalid
    | InvalidAmountValue
    | InvalidCallbackUrl
    | AlreadyConfirmed
    | IncompletePayment
    | InvalidTrackId

  /** Every integer the gateway may send as a status. */
  const WireCodes: set<int> :=
    {-2, -1, 1, 2, 3, 4, 5, 6, 7, 8, 9, 10, 11, 12, 100, 102, 103, 104, 105, 106, 201, 202, 203}

  /** `Status.init?(code:)`: the partial decoder; `None` for an unmapped integer. */
  function FromCode(code: int): (r: Option<Status>)
    ensures r.Some? <==> code in WireCodes
  {
    match code
    case -1 => Some(Waiting)
    case -2 => Some(InternalError)
    case 1 => Some(Paid(true))
    case 2 => Some(Paid(false))
    case 3 => Some(CancelledByUser)
    case 4 => Some(InvalidCardNumber)
    case 5 => Some(InsufficientCredit)
    case 6 => Some(WrongPassword)
    case 7 => Some(ExceededRequestLimit)
    case 8 => Some(ExceededPaymentLimit)
    case 9 => Some(ExceededPaymentAmount)
    case 10 => Some(InvalidCardIssuer)
    case 11 => Some(SwitchFailure)
    case 12 => Some(InaccessibleCard)
    case 100 => Some(Confirmed)
    case 102 => Some(MerchantNotFound)
    case 103 => Some(MerchantInactive)
    case 104 => Some(MerchantInvalid)
    case 105 => Some(InvalidAmountValue)
    case 106 => Some(InvalidCallbackUrl)
    case 201 => Some(AlreadyConfirmed)
    case 202 => Some(IncompletePayment)
    case 203 => Some(InvalidTrackId)
    case _ => None
  }

  /** `Status.code`: the total encoder. */
  function Code(s: Status): (c: int)
    ensures c in WireCodes
  {
    match s
    case Waiting => -1
    case InternalError => -2
    case Paid(isVerified) => if isVerified then 1 else 2
    case CancelledByUser => 3
    case InvalidCardNumber => 4
    case InsufficientCredit => 5
    case WrongPassword => 6
    case ExceededRequestLimit => 7
    case ExceededPaymentLimit => 8
    case ExceededPaymentAmount => 9
    case InvalidCardIssuer => 10
    case SwitchFailure => 11
    case InaccessibleCard => 12
    case Confirmed => 100
    case MerchantNotFound => 102
    case MerchantInactive => 103
    case MerchantInvalid => 104
    case InvalidAmountValue => 105
    case InvalidCallbackUrl => 106
    case AlreadyConfirmed => 201
    case IncompletePayment => 202
    case InvalidTrackId => 203
  }

  /** `Status.message`: the fixed Persian text shown for each outcome. */
  function Message(s: Status): (m: string)
    ensures m != []
  {
    match s
    case Waiting => "در انتظار پردخت"
    case InternalError => "خطای داخلی"
    case Paid(isVerified) =>
      if isVerified then "پرداخت شده - تاییدشده" else "پرداخت شده - تاییدنشده"
    case CancelledByUser => "لغوشده توسط کاربر"
    case InvalidCardNumber => "شماره کارت نامعتبر می‌باشد"
    case InsufficientCredit => "موجودی حساب کافی نمی‌باشد"
    case WrongPassword => "رمز واردشده اشتباه می‌باشد"
    case ExceededRequestLimit => "تعداد درخواست‌ها بیش از حد مجاز می‌باشد"
    case ExceededPaymentLimit => "تعداد پرداخت اینترنتی روزانه بیش از حد مجاز می‌باشد"
    case ExceededPaymentAmount => "مبلغ پرداخت اینترنتی روزانه بیش از حد مجاز می‌باشد"
    case InvalidCardIssuer => "صادرکننده‌ی کارت نامعتبر می‌باشد"
    case SwitchFailure => "خطای سوییچ"
    case InaccessibleCard => "کارت قابل دسترسی نمی‌باشد"
    case Confirmed => "با موفقیت تایید شد"
    case MerchantNotFound => "{merchant} یافت نشد"
    case MerchantInactive => "{merchant} غیرفعال"
    case MerchantInvalid => "{merchant} نامعتبر"
    case InvalidAmountValue => "{amount} بایستی بزرگتر از 1,000 ریال باشد"
    case InvalidCallbackUrl => "{callbackUrl} نامعتبر می‌باشد (شروع با http و یا https)"
    case AlreadyConfirmed => "قبلا تایید شده"
    case IncompletePayment => "سفارش پرداخت نشده یا ناموفق بوده است"
    case InvalidTrackId => "{trackId} نامعتبر می‌باشد"
  }

  /** Decoding the code of any status gives that status back. */
  lemma DecodeEncode(s: Status)
    ensures FromCode(Code(s)) == Some(s)
  {
  }

  /** A mapped integer decodes to the status whose code it is. */
  lemma EncodeDecode(c: int)
    requires c in WireCodes
    ensures FromCode(c).Some? && Code(FromCode(c).value) == c
  {
  }

  /** Every unmapped integer, and only those, decodes to `nil`. */
  lemma UnmappedCodes(c: int)
    ensures FromCode(c) == None <==>
      (c < -2 || c == 0 || 12 < c < 100 || c == 101 || 106 < c < 201 || 203 < c)
  {
  }

  /** Two outcomes never share a wire code; in particular `paid(true)` and `paid(false)` differ. */
  lemma {:induction false} CodeInjective(s: Status, t: Status)
    requires Code(s) == Code(t)
    ensures s == t
  {
    DecodeEncode(s);
    DecodeEncode(t);
  }

  /** Every wire code is the code of some outcome: a corollary of `EncodeDecode`, with the decoded status as witness. */
  lemma {:induction false} CodeSurjective(c: int)
    requires c in WireCodes
    ensures exists s :: Code(s) == c
  {
    EncodeDecode(c);
  }
}
