# Iranian utility-bill validator — a Dafny model

This project models `IranBillValidator` from `iran_bill_validator.py`. The validator takes a
13-digit bill number and a payment identifier and checks them with three weighted
modulo-11 check digits. It returns either a validated record (the bill, the payment padded
to 13 digits, a fee and the bill type) or one of two fixed errors: `-1 "Invalid bill number"`
or `-2 "Invalid payment ID"`.

Everything lives in one module, `IranBillValidator` (`iran_bill_validator.dfy`):

- `ValidationResult` is the union of the two result records: `Valid` stands for
  `BillValidationResult` and `Invalid` for `BillValidationError`. `ErrBill`, `ErrPayment`,
  `BillLength`, `MinPaymentId` and `Weights` are the class constants.
- `IsNumeric` models `_is_numeric` (`str.isdigit`): false on the empty string, true when every
  character is an ASCII digit.
- `ToDigits` models `_to_digits` and `SafeInt` models `_safe_int`. Each first parses to an
  `Option` (`ParseDigits`, `ParseInt`). A failed parse collapses to `[]` or `0`, where the
  source catches an exception. `ZFill` models `str.zfill`.
- `Checksum` models `_checksum` as a method. Its `for` loop accumulates `total` and is proved
  to compute the specification function `ChecksumOf`. `ChecksumOf` is built from `WeightedSum`,
  the partial sum after `i` iterations, and `CheckDigit`. `ValidateChecksum` models
  `_validate_checksum`.
- `Validate` models `validate` as a function with the same chain of early returns. It uses
  `ChecksumOf`, which `Checksum` is proved to compute.
- `BlockSum` and `BlockCheckDigit` are an independent reference definition. They give the check
  digit of a contiguous block of digits, where each digit is weighted by `2 + (its distance
  from the block's last digit) % 6`. The lemmas tie the anchor/skip/length arithmetic of the
  source to these blocks. `Accepted` states acceptance in those terms.

The three stages use these windows. The bill stage checks digits 0..11 of the bill against
bill digit 12. The payment stage checks padded digits 0..10 against padded digit 11, so
digit 12 is not read there. The combined stage checks all 20 digits of `bill + padded[5:12]`
against padded digit 12.

Under the ASCII model, three gates in the source can never fire:

- the bill digit-count gate;
- the combined-length gate;
- the payment digit-count gate for payments of 7 to 13 digits.

The payment digit-count gate fires exactly for payments longer than 13 digits, because
`zfill` does not truncate. The demo pair `"7721217800141"`/`"5479201"` is rejected with the
bill error. Its bill window sums to 221, so its check digit is 0, not 1.

## Model

| member | source | states |
|---|---|---|
| IranBillValidator.WeightsCycle | iran_bill_validator.py:34-38 | the weight table has 26 entries and entry i is 2 + i % 6 |
| IranBillValidator.IsNumeric | iran_bill_validator.py:123-125 | true exactly when s is non-empty and every character is '0'..'9' |
| IranBillValidator.IsNumericConverts | iran_bill_validator.py:123-132 | a string is numeric exactly when it is non-empty and `_to_digits` converts it to one digit per character |
| IranBillValidator.ToDigits | iran_bill_validator.py:127-132 | an all-digit string converts to one value 0..9 per character, in order; any other string gives the empty list |
| IranBillValidator.ZFill | iran_bill_validator.py:58 | the padded string has length max(width, length of s), ends with s unchanged, has only '0' before it, and is all digits when s is |
| IranBillValidator.SafeInt | iran_bill_validator.py:116-121 | a digit string parses to its base-10 value; anything else gives 0; the result is never negative |
| IranBillValidator.DecimalValueZero | iran_bill_validator.py:99-101 | the parsed amount is 0 exactly when every character is '0' |
| IranBillValidator.CheckDigit | iran_bill_validator.py:145-146 | the result is in 0..9; it brings the total to a multiple of 11, except when the total is 1 mod 11, where it is 0 |
| IranBillValidator.ChecksumOf | iran_bill_validator.py:134-146 | on every call where the source returns, the result is the sentinel -1 exactly when reverse_index - (start + length - 1) < 0, and otherwise a digit 0..9 |
| IranBillValidator.Checksum | iran_bill_validator.py:134-146 | the guard and the loop over total compute ChecksumOf: the sentinel, or the check digit of the weighted window |
| IranBillValidator.ValidateChecksum | iran_bill_validator.py:148-153 | passes exactly when the window fits and the check digit equals the target; a pass implies the target is a digit, so the sentinel never matches |
| IranBillValidator.WeightedSumIsBlockSum | iran_bill_validator.py:140-143 | the loop reads exactly the n digits ending at reverse_index - start, and its total is their block sum |
| IranBillValidator.BillStageWindow | iran_bill_validator.py:75-76 | the bill check passes exactly when the check digit of bill digits 0..11 equals bill digit 12 |
| IranBillValidator.PaymentStageWindow | iran_bill_validator.py:81-82 | the payment check passes exactly when the check digit of padded digits 0..10 equals padded digit 11 |
| IranBillValidator.CombinedStageWindow | iran_bill_validator.py:93-94 | the combined check passes exactly when the check digit of all 20 combined digits equals the target |
| IranBillValidator.Validate | iran_bill_validator.py:44-110 | results are Valid, ErrBill or ErrPayment only; the gates apply in order: non-digit bill -1, then non-digit payment -2, then bill length not 13 -1, then payment shorter than 7 or longer than 13 -2 |
| IranBillValidator.PaddedDigits | iran_bill_validator.py:58-67 | a numeric payment of 7 to 13 digits pads to 13 characters that all convert |
| IranBillValidator.CombinedDigits | iran_bill_validator.py:87-91 | the digits of bill + padded[5:12] are the bill digits followed by padded digits 5..11, 20 in all |
| IranBillValidator.GatedDigits | iran_bill_validator.py:58-91 | once the gates pass, the digit-count gates and the combined-length gate never fire |
| IranBillValidator.ValidateStageOrder | iran_bill_validator.py:69-110 | after the gates, the three checks run in order with parameters (12,1,12), (12,2,11), (19,0,20) and their targets, then the amount test; the first failure decides |
| IranBillValidator.ValidateStages | iran_bill_validator.py:69-110 | after the gates, the result is decided by the bill block, the payment block, the combined block and the amount, in that order, with the Valid fields given |
| IranBillValidator.ValidateAccepts | iran_bill_validator.py:44-110 | validate returns Valid exactly for the pairs of the reference condition Accepted |
| IranBillValidator.ValidResultFields | iran_bill_validator.py:69-110 | a Valid result implies the gates passed, the bill is unchanged, the payment is the padded payment and the type is bill digit 11 |
| IranBillValidator.ValidFee | iran_bill_validator.py:99-103 | a Valid fee is the value of the first 8 padded characters times 1000, and so a positive multiple of 1000 |
| IranBillValidator.ZeroAmountRejected | iran_bill_validator.py:99-101 | when all three checks pass but the first 8 padded characters are all '0', the result is the payment error |
| IranBillValidator.BillCheckDigitUnique | iran_bill_validator.py:75 | for fixed first 12 bill digits, exactly one last digit passes the bill check: the block check digit of the first 12 |
| IranBillValidator.ChangedLastBillDigitRejected | iran_bill_validator.py:75-76 | changing only the last digit of an accepted bill makes it fail with the bill error |
| IranBillValidator.DemoBillWindow | iran_bill_validator.py:140-146 | whatever its last digit, the demo bill's window sums to 221 and its check digit is 0 |
| IranBillValidator.DemoPairRejected | iran_bill_validator.py:157 | the demo pair is rejected with the bill error |
| IranBillValidator.AcceptedExample | iran_bill_validator.py:99-110 | "7721217800140" with "5479210" is Valid with payment "0000005479210", fee 54000 and type 4 |
| IranBillValidator.ZeroAmountExample | iran_bill_validator.py:99-101 | "7721217800140" with "0000005" passes all three checks but has amount 0, so it is rejected with -2 |
| IranBillValidator.GateScenarios | iran_bill_validator.py:46-56 | "abc"/"123" and an empty bill give -1; a 13-digit bill with "12" or a non-digit payment gives -2 |

## Left out

- Unicode digits. `str.isdigit`, `int()` and `str.zfill` accept Persian, Arabic-Indic and other Unicode digits, but the model treats only ASCII `'0'..'9'` as digits.
- `int()` accepts surrounding whitespace, a sign and underscores. `ParseInt` accepts only plain digit strings, because `_safe_int` is only ever applied to characters already checked to be digits.
- `str.zfill` puts a leading `+` or `-` before the padding. `ZFill` has no sign case, because it is only applied to digit-only payments.
- Exceptions. `_to_digits` and `_safe_int` catch exceptions. The model has `Option`-returning parses that collapse to `[]` and `0` instead.
- `Checksum`, `ChecksumOf`, `ValidateChecksum`: their precondition `ChecksumDefined` admits every call on which `_checksum` returns. That is every call where the guard fires, and every call whose loop stays inside the digits and the weight table. It leaves out only the calls on which the source raises `IndexError`, which `validate` never makes.
- `Checksum`, `ChecksumOf`, `ValidateChecksum`: `start` and `length` are `nat`. Python also accepts negative values; for example, `length = -1` with the guard passing gives an empty loop and the result 0. `validate` passes only non-negative constants.
- The module-level demo script (lines 157-162). Line 157 is an assignment to a local inside `_validate_checksum`, after its last `return`, so it never runs. `result` is therefore never defined at module level, and line 159 raises `NameError` when the module is run or imported, before anything is printed. `DemoPairRejected` states what the call on line 157 would have returned.
- The `dataclass(frozen=True)` machinery and the `Union` type. The model uses a plain datatype.
- Determinism and concurrency. `Validate` is a Dafny function, so determinism and statelessness hold by construction and are not stated as lemmas.
