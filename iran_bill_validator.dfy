/** Model of the Iranian utility-bill validator: two digit strings (a 13-digit bill
    number and a payment identifier of 7 to 13 digits) are checked by input gates,
    three weighted modulo-11 check digits and a positive fee, and the outcome is
    either a validated record or one of two fixed errors. */
module IranBillValidator {

  datatype Option<T> = None | Some(value: T)

  /** `Valid` is the BillValidationResult record, `Invalid` the BillValidationError record. */
  datatype ValidationResult =
    | Valid(billNumber: string, paymentId: string, fee: int, billType: int)
    | Invalid(code: int, message: string)

  const BillLength: nat := 13
  const MinPaymentId: nat := 7

  const ErrBill: ValidationResult := Invalid(-1, "Invalid bill number")
  const ErrPayment: ValidationResult := Invalid(-2, "Invalid payment ID")

  /** The weight table: the cycle 2..7 written out to 26 entries. */
  const Weights: seq<int> :=
    [2, 3, 4, 5, 6, 7, 2, 3, 4, 5, 6, 7,
     2, 3, 4, 5, 6, 7, 2, 3, 4, 5, 6, 7,
     2, 3]

  lemma WeightsCycle()
    ensures |Weights| == 26
    ensures forall i :: 0 <= i < |Weights| ==> Weights[i] == 2 + i % 6
  {
  }

  // ---------------------------------------------------------------------------
  // Characters, digit strings and numbers
  // ---------------------------------------------------------------------------

  predicate IsDigitChar(c: char) { '0' <= c <= '9' }

  predicate AllDigits(s: string) { forall i :: 0 <= i < |s| ==> IsDigitChar(s[i]) }

  /** `str.isdigit` over ASCII: false on the empty string. */
  predicate IsNumeric(s: string) { |s| > 0 && AllDigits(s) }

  function DigitValue(c: char): (v: int)
    requires IsDigitChar(c)
    ensures 0 <= v <= 9
  {
    c as int - '0' as int
  }

  /** Converting every character with `int(ch)`; `None` when one of them is not a digit. */
  function ParseDigits(s: string): Option<seq<int>>
  {
    if AllDigits(s) then Some(seq(|s|, i requires 0 <= i < |s| => DigitValue(s[i]))) else None
  }

  /** `_to_digits`: a failed conversion collapses to the empty list. */
  function ToDigits(s: string): (d: seq<int>)
    ensures AllDigits(s) ==> |d| == |s| && forall i :: 0 <= i < |s| ==> d[i] == DigitValue(s[i])
    ensures !AllDigits(s) ==> d == []
    ensures forall i :: 0 <= i < |d| ==> 0 <= d[i] <= 9
  {
    match ParseDigits(s)
    case Some(ds) => ds
    case None => []
  }

  /** `_is_numeric` and `_to_digits` agree: a string is numeric exactly when it is
      non-empty and converts to one digit per character. */
  lemma IsNumericConverts(s: string)
    ensures IsNumeric(s) <==> |s| > 0 && |ToDigits(s)| == |s|
  {
  }

  /** `str.zfill(width)` on a string without a leading sign. */
  function ZFill(s: string, width: nat): (r: string)
    ensures |r| == if |s| >= width then |s| else width
    ensures forall i :: 0 <= i < |s| ==> r[|r| - |s| + i] == s[i]
    ensures forall i :: 0 <= i < |r| - |s| ==> r[i] == '0'
    ensures AllDigits(s) ==> AllDigits(r)
  {
    if |s| >= width then s else seq(width - |s|, _ => '0') + s
  }

  /** The base-10 value of a digit string, most significant digit first. */
  function DecimalValue(s: string): nat
    requires AllDigits(s)
  {
    if s == [] then 0 else 10 * DecimalValue(s[..|s| - 1]) + DigitValue(s[|s| - 1])
  }

  lemma {:induction false} DecimalValueZero(s: string)
    requires AllDigits(s)
    ensures DecimalValue(s) == 0 <==> forall i :: 0 <= i < |s| ==> s[i] == '0'
  {
    if s != [] {
      var init := s[..|s| - 1];
      DecimalValueZero(init);
      assert forall i :: 0 <= i < |init| ==> init[i] == s[i];
    }
  }

  /** `int(value)` on a plain digit string; `None` where `int` would raise. */
  function ParseInt(s: string): Option<nat>
  {
    if IsNumeric(s) then Some(DecimalValue(s)) else None
  }

  /** `_safe_int`: a failed parse collapses to 0. */
  function SafeInt(s: string): (n: int)
    ensures n >= 0
    ensures IsNumeric(s) ==> n == DecimalValue(s)
    ensures !IsNumeric(s) ==> n == 0
  {
    match ParseInt(s)
    case Some(v) => v
    case None => 0
  }

  // ---------------------------------------------------------------------------
  // The generic mod-11 check digit
  // ---------------------------------------------------------------------------

  /** The n digits read from position anchor - skip down to anchor - skip - (n - 1) exist,
      and there is a weight for each of them. */
  predicate WindowInBounds(d: seq<int>, anchor: int, skip: nat, n: nat)
  {
    n <= |Weights| && (n == 0 || (0 <= anchor - skip - (n - 1) && anchor - skip < |d|))
  }

  /** The sum of the first n terms that `_checksum` accumulates: term i is
      d[anchor - skip - i] * Weights[i]. */
  function WeightedSum(d: seq<int>, anchor: int, skip: nat, n: nat): int
    requires WindowInBounds(d, anchor, skip, n)
  {
    if n == 0 then 0
    else WeightedSum(d, anchor, skip, n - 1) + d[anchor - skip - (n - 1)] * Weights[n - 1]
  }

  /** `11 - total % 11`, with 10 and 11 mapped to 0: the digit that brings the total
      to a multiple of 11, or 0 when that digit would be 10. */
  function CheckDigit(total: int): (c: int)
    ensures 0 <= c <= 9
    ensures total % 11 == 1 ==> c == 0
    ensures total % 11 != 1 ==> (total + c) % 11 == 0
  {
    var r := 11 - total % 11;
    if r > 9 then 0 else r
  }

  /** The arguments on which `_checksum` returns rather than raising: either the guard
      fires before anything is read, or every index the loop reads is inside the digits
      and inside the weight table. */
  predicate ChecksumDefined(d: seq<int>, reverseIndex: int, start: nat, length: nat)
  {
    reverseIndex - (start + length - 1) < 0
    || ((length == 0 || reverseIndex - start < |d|) && length <= |Weights|)
  }

  /** The value `_checksum` returns: the sentinel -1 when the window runs off the front
      of the digits, otherwise the check digit of the weighted window. */
  function ChecksumOf(d: seq<int>, reverseIndex: int, start: nat, length: nat): (c: int)
    requires ChecksumDefined(d, reverseIndex, start, length)
    ensures c == -1 <==> reverseIndex - (start + length - 1) < 0
    ensures c != -1 ==> 0 <= c <= 9
  {
    if reverseIndex - (start + length - 1) < 0 then -1
    else CheckDigit(WeightedSum(d, reverseIndex, start, length))
  }

  /** `_checksum`: the guard, then a loop accumulating the weighted window into `total`. */
  method Checksum(digits: seq<int>, reverseIndex: int, start: nat, length: nat) returns (c: int)
    requires ChecksumDefined(digits, reverseIndex, start, length)
    ensures c == ChecksumOf(digits, reverseIndex, start, length)
  {
    if reverseIndex - (start + length - 1) < 0 {
      return -1;
    }
    var total := 0;
    for i := 0 to length
      invariant total == WeightedSum(digits, reverseIndex, start, i)
    {
      var idx := reverseIndex - (start + i);
      total := total + digits[idx] * Weights[i];
    }
    var result := 11 - total % 11;
    c := if result > 9 then 0 else result;
  }

  /** `_validate_checksum`: the sentinel never passes, otherwise the check digit must equal the target. */
  function ValidateChecksum(d: seq<int>, reverseIndex: int, start: nat, length: nat, target: int): (ok: bool)
    requires ChecksumDefined(d, reverseIndex, start, length)
    ensures ok <==> reverseIndex - (start + length - 1) >= 0 && ChecksumOf(d, reverseIndex, start, length) == target
    ensures ok ==> 0 <= target <= 9
  {
    var c := ChecksumOf(d, reverseIndex, start, length);
    if c < 0 then false else c == target
  }

  // ---------------------------------------------------------------------------
  // Reference definition: the check digit of a contiguous block of digits
  // ---------------------------------------------------------------------------

  /** Each digit weighted by 2 + (its distance from the block's last digit) % 6. */
  function BlockSum(ds: seq<int>): int
  {
    if ds == [] then 0 else ds[0] * (2 + (|ds| - 1) % 6) + BlockSum(ds[1..])
  }

  function BlockCheckDigit(ds: seq<int>): (c: int)
    ensures 0 <= c <= 9
  {
    CheckDigit(BlockSum(ds))
  }

  /** The window `_checksum` walks is exactly the block of n digits ending at anchor - skip. */
  lemma {:induction false} WeightedSumIsBlockSum(d: seq<int>, anchor: int, skip: nat, n: nat)
    requires WindowInBounds(d, anchor, skip, n) && n > 0
    ensures WeightedSum(d, anchor, skip, n) == BlockSum(d[anchor - skip - (n - 1)..anchor - skip + 1])
  {
    var lo := anchor - skip - (n - 1);
    var block := d[lo..anchor - skip + 1];
    assert |block| == n && block[0] == d[lo];
    WeightsCycle();
    assert Weights[n - 1] == 2 + (n - 1) % 6;
    assert BlockSum(block) == d[lo] * (2 + (n - 1) % 6) + BlockSum(block[1..]);
    if n == 1 {
      assert block[1..] == [];
    } else {
      WeightedSumIsBlockSum(d, anchor, skip, n - 1);
      assert block[1..] == d[lo + 1..anchor - skip + 1];
    }
  }

  /** A check against `target` over the window ending at anchor - skip passes exactly when
      the block's check digit equals the target. */
  lemma StageWindow(d: seq<int>, anchor: int, skip: nat, n: nat, target: int)
    requires anchor < |d| && 0 < n <= |Weights| && 0 <= anchor - skip - (n - 1)
    ensures ValidateChecksum(d, anchor, skip, n, target)
        <==> BlockCheckDigit(d[anchor - skip - (n - 1)..anchor - skip + 1]) == target
  {
    WeightedSumIsBlockSum(d, anchor, skip, n);
  }

  /** The bill stage reads bill digits 11..0 and compares with digit 12. */
  lemma BillStageWindow(bd: seq<int>)
    requires |bd| == BillLength
    ensures ValidateChecksum(bd, 12, 1, 12, bd[12]) <==> BlockCheckDigit(bd[..12]) == bd[12]
  {
    assert bd[0..12] == bd[..12];
    StageWindow(bd, 12, 1, 12, bd[12]);
  }

  /** The payment stage reads padded digits 10..0 and compares with digit 11; digit 12 is not read. */
  lemma PaymentStageWindow(pd: seq<int>)
    requires |pd| == BillLength
    ensures ValidateChecksum(pd, 12, 2, 11, pd[11]) <==> BlockCheckDigit(pd[..11]) == pd[11]
  {
    assert pd[0..11] == pd[..11];
    StageWindow(pd, 12, 2, 11, pd[11]);
  }

  /** The combined stage reads all 20 combined digits and compares with the given target. */
  lemma CombinedStageWindow(cd: seq<int>, target: int)
    requires |cd| == 20
    ensures ValidateChecksum(cd, 19, 0, 20, target) <==> BlockCheckDigit(cd) == target
  {
    assert cd[0..20] == cd;
    StageWindow(cd, 19, 0, 20, target);
  }

  // ---------------------------------------------------------------------------
  // validate
  // ---------------------------------------------------------------------------

  /** `IranBillValidator.validate`: the four input gates in order, padding, the two
      defensive digit-count gates, the three checksum stages and the fee. */
  function Validate(billNumber: string, paymentId: string): (r: ValidationResult)
    ensures r.Invalid? ==> r == ErrBill || r == ErrPayment
    ensures !IsNumeric(billNumber) ==> r == ErrBill
    ensures IsNumeric(billNumber) && !IsNumeric(paymentId) ==> r == ErrPayment
    ensures IsNumeric(billNumber) && IsNumeric(paymentId) && |billNumber| != BillLength ==> r == ErrBill
    ensures (IsNumeric(billNumber) && IsNumeric(paymentId) && |billNumber| == BillLength
             && (|paymentId| < MinPaymentId || |paymentId| > BillLength)) ==> r == ErrPayment
  {
    if !IsNumeric(billNumber) then ErrBill
    else if !IsNumeric(paymentId) then ErrPayment
    else if |billNumber| != BillLength then ErrBill
    else if |paymentId| < MinPaymentId then ErrPayment
    else
      var paddedPayment := ZFill(paymentId, BillLength);
      var billDigits := ToDigits(billNumber);
      var paymentDigits := ToDigits(paddedPayment);
      if |billDigits| != BillLength then ErrBill
      else if |paymentDigits| != BillLength then ErrPayment
      else
        var billType := billDigits[11];
        var last := BillLength - 1;
        if !ValidateChecksum(billDigits, last, 1, 12, billDigits[last]) then ErrBill
        else if !ValidateChecksum(paymentDigits, last, 2, 11, paymentDigits[last - 1]) then ErrPayment
        else
          var combined := billNumber + paddedPayment[5..12];
          var combinedDigits := ToDigits(combined);
          if |combinedDigits| != 20 then ErrPayment
          else if !ValidateChecksum(combinedDigits, 19, 0, 20, paymentDigits[last]) then ErrPayment
          else
            var amount := SafeInt(paddedPayment[..8]);
            if amount <= 0 then ErrPayment
            else Valid(billNumber, paddedPayment, amount * 1000, billType)
  }

  /** The inputs that pass the gates: both numeric, a 13-digit bill, a 7- to 13-digit payment. */
  predicate PassesGates(billNumber: string, paymentId: string)
  {
    IsNumeric(billNumber) && IsNumeric(paymentId) && |billNumber| == BillLength
    && MinPaymentId <= |paymentId| <= BillLength
  }

  /** A numeric payment of 7 to 13 digits pads to 13 digits, all of which convert. */
  lemma PaddedDigits(paymentId: string)
    requires IsNumeric(paymentId) && MinPaymentId <= |paymentId| <= BillLength
    ensures |ZFill(paymentId, BillLength)| == BillLength
    ensures AllDigits(ZFill(paymentId, BillLength))
    ensures |ToDigits(ZFill(paymentId, BillLength))| == BillLength
  {
  }

  /** The digits of the bill followed by characters 5..11 of the padded payment are the
      bill digits followed by padded digits 5..11: twenty digits. */
  lemma CombinedDigits(billNumber: string, padded: string)
    requires AllDigits(billNumber) && AllDigits(padded)
    requires |billNumber| == |padded| == BillLength
    ensures ToDigits(billNumber + padded[5..12]) == ToDigits(billNumber) + ToDigits(padded)[5..12]
    ensures |ToDigits(billNumber + padded[5..12])| == 20
  {
    var combined := billNumber + padded[5..12];
    forall i | 0 <= i < |combined|
      ensures IsDigitChar(combined[i])
      ensures i >= |billNumber| ==> combined[i] == padded[5 + i - |billNumber|]
    {
      if i >= |billNumber| {
        assert combined[i] == padded[5..12][i - |billNumber|];
      }
    }
    assert AllDigits(combined);
  }

  /** Once the gates pass, the padded payment has 13 digits, both digit conversions
      succeed, and the combined sequence has exactly 20 digits. */
  lemma GatedDigits(billNumber: string, paymentId: string)
    requires PassesGates(billNumber, paymentId)
    ensures |ZFill(paymentId, BillLength)| == BillLength
    ensures AllDigits(ZFill(paymentId, BillLength))
    ensures |ToDigits(billNumber)| == BillLength
    ensures |ToDigits(ZFill(paymentId, BillLength))| == BillLength
    ensures ToDigits(billNumber + ZFill(paymentId, BillLength)[5..12])
            == ToDigits(billNumber) + ToDigits(ZFill(paymentId, BillLength))[5..12]
    ensures |ToDigits(billNumber + ZFill(paymentId, BillLength)[5..12])| == 20
  {
    PaddedDigits(paymentId);
    CombinedDigits(billNumber, ZFill(paymentId, BillLength));
  }

  /** Reference condition for acceptance, in terms of the three digit blocks and the amount. */
  predicate Accepted(billNumber: string, paymentId: string)
  {
    PassesGates(billNumber, paymentId) &&
    var padded := ZFill(paymentId, BillLength);
    var bd := ToDigits(billNumber);
    var pd := ToDigits(padded);
    |padded| == |bd| == |pd| == BillLength && AllDigits(padded)
    && BlockCheckDigit(bd[..12]) == bd[12]
    && BlockCheckDigit(pd[..11]) == pd[11]
    && BlockCheckDigit(bd + pd[5..12]) == pd[12]
    && DecimalValue(padded[..8]) > 0
  }

  /** Once the gates pass, the combined-length gate and the two digit-count gates never
      fire, and the three checks run in order with the parameters Python's `validate` passes: the bill
      digits anchored at 12 skipping 1 over 12 digits against digit 12, the padded payment
      digits anchored at 12 skipping 2 over 11 digits against digit 11, and the 20 combined
      digits anchored at 19 over all 20 against padded digit 12; then the amount. */
  lemma ValidateStageOrder(billNumber: string, paymentId: string)
    requires PassesGates(billNumber, paymentId)
    ensures var padded := ZFill(paymentId, BillLength);
            var bd := ToDigits(billNumber);
            var pd := ToDigits(padded);
            |padded| == |bd| == |pd| == BillLength && AllDigits(padded)
            && Validate(billNumber, paymentId)
               == if !ValidateChecksum(bd, 12, 1, 12, bd[12]) then ErrBill
                  else if !ValidateChecksum(pd, 12, 2, 11, pd[11]) then ErrPayment
                  else if !ValidateChecksum(bd + pd[5..12], 19, 0, 20, pd[12]) then ErrPayment
                  else if DecimalValue(padded[..8]) == 0 then ErrPayment
                  else Valid(billNumber, padded, DecimalValue(padded[..8]) * 1000, bd[11])
  {
    GatedDigits(billNumber, paymentId);
    var padded := ZFill(paymentId, BillLength);
    assert IsNumeric(padded[..8]);
  }

  /** Once the gates pass, the first failing stage decides, each stage judged by the check
      digit of its block: bill digits 0..11 against bill digit 12, padded digits 0..10
      against padded digit 11, the 20 combined digits against padded digit 12; then the
      amount of the first eight padded characters. */
  lemma ValidateStages(billNumber: string, paymentId: string)
    requires PassesGates(billNumber, paymentId)
    ensures var padded := ZFill(paymentId, BillLength);
            var bd := ToDigits(billNumber);
            var pd := ToDigits(padded);
            |padded| == |bd| == |pd| == BillLength && AllDigits(padded)
            && Validate(billNumber, paymentId)
               == if BlockCheckDigit(bd[..12]) != bd[12] then ErrBill
                  else if BlockCheckDigit(pd[..11]) != pd[11] then ErrPayment
                  else if BlockCheckDigit(bd + pd[5..12]) != pd[12] then ErrPayment
                  else if DecimalValue(padded[..8]) == 0 then ErrPayment
                  else Valid(billNumber, padded, DecimalValue(padded[..8]) * 1000, bd[11])
  {
    ValidateStageOrder(billNumber, paymentId);
    var bd := ToDigits(billNumber);
    var pd := ToDigits(ZFill(paymentId, BillLength));
    BillStageWindow(bd);
    PaymentStageWindow(pd);
    CombinedStageWindow(bd + pd[5..12], pd[12]);
  }

  /** `validate` accepts exactly the pairs of `Accepted`. */
  lemma ValidateAccepts(billNumber: string, paymentId: string)
    ensures Validate(billNumber, paymentId).Valid? <==> Accepted(billNumber, paymentId)
  {
    if PassesGates(billNumber, paymentId) {
      ValidateStages(billNumber, paymentId);
    }
  }

  /** What a `Valid` result guarantees about its fields: the gates passed, the bill is
      returned unchanged, the payment padded to 13 characters, and bill digit 11 as the type. */
  lemma ValidResultFields(billNumber: string, paymentId: string)
    requires Validate(billNumber, paymentId).Valid?
    ensures PassesGates(billNumber, paymentId)
    ensures Validate(billNumber, paymentId).billNumber == billNumber
    ensures Validate(billNumber, paymentId).paymentId == ZFill(paymentId, BillLength)
    ensures |ToDigits(billNumber)| == BillLength
    ensures Validate(billNumber, paymentId).billType == ToDigits(billNumber)[11]
  {
    assert PassesGates(billNumber, paymentId);
    ValidateStageOrder(billNumber, paymentId);
  }

  /** The fee of a `Valid` result is the amount of the first eight padded characters in
      thousands, and so a positive multiple of 1000. */
  lemma ValidFee(billNumber: string, paymentId: string)
    requires Validate(billNumber, paymentId).Valid?
    ensures var r := Validate(billNumber, paymentId);
            |r.paymentId| == BillLength && AllDigits(r.paymentId)
            && r.fee == DecimalValue(r.paymentId[..8]) * 1000
            && r.fee > 0 && r.fee % 1000 == 0
  {
    assert PassesGates(billNumber, paymentId);
    ValidateStageOrder(billNumber, paymentId);
    var padded := ZFill(paymentId, BillLength);
    var amount := DecimalValue(padded[..8]);
    assert Validate(billNumber, paymentId) == Valid(billNumber, padded, amount * 1000, ToDigits(billNumber)[11]);
    ThousandsMultiple(amount);
  }

  /** Kept apart from `ValidFee` so that the modulus is reasoned about without the
      unfolded `Validate` in scope. */
  lemma ThousandsMultiple(amount: int)
    ensures (amount * 1000) % 1000 == 0
  {
  }

  /** A pair that passes every check but whose first eight padded characters are all
      '0' is rejected as a payment error. */
  lemma ZeroAmountRejected(billNumber: string, paymentId: string)
    requires PassesGates(billNumber, paymentId)
    requires var bd := ToDigits(billNumber);
             var pd := ToDigits(ZFill(paymentId, BillLength));
             |bd| == |pd| == BillLength
             && BlockCheckDigit(bd[..12]) == bd[12]
             && BlockCheckDigit(pd[..11]) == pd[11]
             && BlockCheckDigit(bd + pd[5..12]) == pd[12]
    requires forall i :: 0 <= i < 8 ==> ZFill(paymentId, BillLength)[i] == '0'
    ensures Validate(billNumber, paymentId) == ErrPayment
  {
    var padded := ZFill(paymentId, BillLength);
    var amountDigits := padded[..8];
    assert AllDigits(amountDigits) && DecimalValue(amountDigits) == 0 by {
      assert |padded| == BillLength && AllDigits(padded);
      assert forall i :: 0 <= i < |amountDigits| ==> amountDigits[i] == '0';
      DecimalValueZero(amountDigits);
    }
    ValidateStages(billNumber, paymentId);
  }

  /** Stage 1 never reads bill digit 12, so for fixed first twelve digits exactly one
      last digit passes it: the block check digit of the first twelve. */
  lemma BillCheckDigitUnique(prefix: seq<int>, x: int)
    requires |prefix| == 12
    ensures ValidateChecksum(prefix + [x], 12, 1, 12, x) <==> x == BlockCheckDigit(prefix)
  {
    BillStageWindow(prefix + [x]);
    assert (prefix + [x])[..12] == prefix;
  }

  /** Two 13-digit bills that differ only in their last character have the same first
      twelve digits and different last digits. */
  lemma LastDigitChanged(billNumber: string, other: string)
    requires IsNumeric(billNumber) && |billNumber| == |other| == BillLength
    requires other[..12] == billNumber[..12] && IsDigitChar(other[12]) && other[12] != billNumber[12]
    ensures IsNumeric(other)
    ensures ToDigits(other)[..12] == ToDigits(billNumber)[..12]
    ensures ToDigits(other)[12] != ToDigits(billNumber)[12]
  {
    forall i | 0 <= i < 12
      ensures other[i] == billNumber[i]
    {
      assert other[i] == other[..12][i];
    }
    assert AllDigits(other);
  }

  /** Changing only the last digit of an accepted bill makes it fail with the bill error. */
  lemma ChangedLastBillDigitRejected(billNumber: string, other: string, paymentId: string)
    requires Validate(billNumber, paymentId).Valid?
    requires |billNumber| == |other| == BillLength
    requires other[..12] == billNumber[..12] && IsDigitChar(other[12]) && other[12] != billNumber[12]
    ensures Validate(other, paymentId) == ErrBill
  {
    ValidResultFields(billNumber, paymentId);
    LastDigitChanged(billNumber, other);
    ValidateStages(billNumber, paymentId);
    ValidateStages(other, paymentId);
  }

  // ---------------------------------------------------------------------------
  // Concrete scenarios
  // ---------------------------------------------------------------------------
  // The weighted sums of the examples are walked term by term in short lemmas
  // (`...Head`, `...Mid`, then the full window), and the digit facts of each literal
  // string sit in their own lemma: one long chain per example costs the solver far more.

  /** The first twelve digits of the demo bill "7721217800141". */
  const DemoBillPrefix: seq<int> := [7, 7, 2, 1, 2, 1, 7, 8, 0, 0, 1, 4]

  /** Whatever the last digit, the bill window of the demo bill, digits 11..0 weighted
      2..7, 2..7, sums to 221; 221 % 11 == 1, so the check digit is 0. */
  lemma DemoBillWindow(last: int)
    ensures WeightedSum(DemoBillPrefix + [last], 12, 1, 12) == 221
    ensures ChecksumOf(DemoBillPrefix + [last], 12, 1, 12) == 0
  {
    var d := DemoBillPrefix + [last];
    DemoBillWindowHead(last);
    assert WeightedSum(d, 12, 1, 7) == 110;
    assert WeightedSum(d, 12, 1, 8) == 116;
    assert WeightedSum(d, 12, 1, 9) == 120;
    assert WeightedSum(d, 12, 1, 10) == 130;
    assert WeightedSum(d, 12, 1, 11) == 172;
  }

  /** The first six terms of the demo bill window. */
  lemma DemoBillWindowHead(last: int)
    ensures WeightedSum(DemoBillPrefix + [last], 12, 1, 6) == 108
  {
    var d := DemoBillPrefix + [last];
    assert WeightedSum(d, 12, 1, 1) == 8;
    assert WeightedSum(d, 12, 1, 2) == 11;
    assert WeightedSum(d, 12, 1, 3) == 11;
    assert WeightedSum(d, 12, 1, 4) == 11;
    assert WeightedSum(d, 12, 1, 5) == 59;
  }

  /** The demo pair fails the bill stage: its check digit 0 differs from the last digit 1. */
  lemma DemoPairRejected()
    ensures Validate("7721217800141", "5479201") == ErrBill
  {
    var bill, payment := "7721217800141", "5479201";
    assert AllDigits(bill) && AllDigits(payment);
    assert ToDigits(bill) == DemoBillPrefix + [1];
    DemoBillWindow(1);
    BillStageWindow(DemoBillPrefix + [1]);
    ValidateStages(bill, payment);
  }

  /** The payment window of "0000005479210", digits 10..0, sums to 109; its check digit is 1. */
  lemma ExamplePaymentWindow()
    ensures ChecksumOf([0, 0, 0, 0, 0, 0, 5, 4, 7, 9, 2, 1, 0], 12, 2, 11) == 1
  {
    var d := [0, 0, 0, 0, 0, 0, 5, 4, 7, 9, 2, 1, 0];
    ExamplePaymentWindowHead();
    assert WeightedSum(d, 12, 2, 6) == 109;
    assert WeightedSum(d, 12, 2, 7) == 109;
    assert WeightedSum(d, 12, 2, 8) == 109;
    assert WeightedSum(d, 12, 2, 9) == 109;
    assert WeightedSum(d, 12, 2, 10) == 109;
  }

  /** The first five terms of the payment window of "0000005479210". */
  lemma ExamplePaymentWindowHead()
    ensures WeightedSum([0, 0, 0, 0, 0, 0, 5, 4, 7, 9, 2, 1, 0], 12, 2, 5) == 109
  {
    var d := [0, 0, 0, 0, 0, 0, 5, 4, 7, 9, 2, 1, 0];
    assert WeightedSum(d, 12, 2, 1) == 4;
    assert WeightedSum(d, 12, 2, 2) == 31;
    assert WeightedSum(d, 12, 2, 3) == 59;
    assert WeightedSum(d, 12, 2, 4) == 79;
  }

  /** The first seven terms of the combined window of "7721217800140" and "0000005479210". */
  lemma ExampleCombinedWindowHead()
    ensures WeightedSum([7, 7, 2, 1, 2, 1, 7, 8, 0, 0, 1, 4, 0, 0, 5, 4, 7, 9, 2, 1], 19, 0, 7) == 138
  {
    var d := [7, 7, 2, 1, 2, 1, 7, 8, 0, 0, 1, 4, 0, 0, 5, 4, 7, 9, 2, 1];
    assert WeightedSum(d, 19, 0, 1) == 2;
    assert WeightedSum(d, 19, 0, 2) == 8;
    assert WeightedSum(d, 19, 0, 3) == 44;
    assert WeightedSum(d, 19, 0, 4) == 79;
    assert WeightedSum(d, 19, 0, 5) == 103;
    assert WeightedSum(d, 19, 0, 6) == 138;
  }

  /** Terms eight to fourteen of the same combined window. */
  lemma ExampleCombinedWindowMid()
    ensures WeightedSum([7, 7, 2, 1, 2, 1, 7, 8, 0, 0, 1, 4, 0, 0, 5, 4, 7, 9, 2, 1], 19, 0, 14) == 196
  {
    var d := [7, 7, 2, 1, 2, 1, 7, 8, 0, 0, 1, 4, 0, 0, 5, 4, 7, 9, 2, 1];
    ExampleCombinedWindowHead();
    assert WeightedSum(d, 19, 0, 8) == 138;
    assert WeightedSum(d, 19, 0, 9) == 154;
    assert WeightedSum(d, 19, 0, 10) == 159;
    assert WeightedSum(d, 19, 0, 11) == 159;
    assert WeightedSum(d, 19, 0, 12) == 159;
    assert WeightedSum(d, 19, 0, 13) == 175;
  }

  /** The combined window of "7721217800140" and "0000005479210" sums to 265; its check digit is 0. */
  lemma ExampleCombinedWindow()
    ensures ChecksumOf([7, 7, 2, 1, 2, 1, 7, 8, 0, 0, 1, 4, 0, 0, 5, 4, 7, 9, 2, 1], 19, 0, 20) == 0
  {
    var d := [7, 7, 2, 1, 2, 1, 7, 8, 0, 0, 1, 4, 0, 0, 5, 4, 7, 9, 2, 1];
    ExampleCombinedWindowMid();
    assert WeightedSum(d, 19, 0, 15) == 200;
    assert WeightedSum(d, 19, 0, 16) == 210;
    assert WeightedSum(d, 19, 0, 17) == 216;
    assert WeightedSum(d, 19, 0, 18) == 230;
    assert WeightedSum(d, 19, 0, 19) == 244;
  }

  /** The first seven terms of the combined window of "7721217800140" and "0000000000005". */
  lemma ZeroAmountCombinedWindowHead()
    ensures WeightedSum([7, 7, 2, 1, 2, 1, 7, 8, 0, 0, 1, 4, 0, 0, 0, 0, 0, 0, 0, 0], 19, 0, 7) == 0
  {
    var d := [7, 7, 2, 1, 2, 1, 7, 8, 0, 0, 1, 4, 0, 0, 0, 0, 0, 0, 0, 0];
    assert WeightedSum(d, 19, 0, 1) == 0;
    assert WeightedSum(d, 19, 0, 2) == 0;
    assert WeightedSum(d, 19, 0, 3) == 0;
    assert WeightedSum(d, 19, 0, 4) == 0;
    assert WeightedSum(d, 19, 0, 5) == 0;
    assert WeightedSum(d, 19, 0, 6) == 0;
  }

  /** Terms eight to fourteen of the same combined window. */
  lemma ZeroAmountCombinedWindowMid()
    ensures WeightedSum([7, 7, 2, 1, 2, 1, 7, 8, 0, 0, 1, 4, 0, 0, 0, 0, 0, 0, 0, 0], 19, 0, 14) == 58
  {
    var d := [7, 7, 2, 1, 2, 1, 7, 8, 0, 0, 1, 4, 0, 0, 0, 0, 0, 0, 0, 0];
    ZeroAmountCombinedWindowHead();
    assert WeightedSum(d, 19, 0, 8) == 0;
    assert WeightedSum(d, 19, 0, 9) == 16;
    assert WeightedSum(d, 19, 0, 10) == 21;
    assert WeightedSum(d, 19, 0, 11) == 21;
    assert WeightedSum(d, 19, 0, 12) == 21;
    assert WeightedSum(d, 19, 0, 13) == 37;
  }

  /** The combined window of "7721217800140" and "0000000000005" sums to 127; its check digit is 5. */
  lemma ZeroAmountCombinedWindow()
    ensures ChecksumOf([7, 7, 2, 1, 2, 1, 7, 8, 0, 0, 1, 4, 0, 0, 0, 0, 0, 0, 0, 0], 19, 0, 20) == 5
  {
    var d := [7, 7, 2, 1, 2, 1, 7, 8, 0, 0, 1, 4, 0, 0, 0, 0, 0, 0, 0, 0];
    ZeroAmountCombinedWindowMid();
    assert WeightedSum(d, 19, 0, 15) == 62;
    assert WeightedSum(d, 19, 0, 16) == 72;
    assert WeightedSum(d, 19, 0, 17) == 78;
    assert WeightedSum(d, 19, 0, 18) == 92;
    assert WeightedSum(d, 19, 0, 19) == 106;
  }

  /** The amount "00000054" of the padded payment "0000005479210" is 54. */
  lemma ExampleAmount()
    ensures DecimalValue("00000054") == 54
  {
    var s := "00000054";
    var zeros := s[..6];
    assert forall i :: 0 <= i < |zeros| ==> zeros[i] == '0';
    DecimalValueZero(zeros);
    assert s[..7][..6] == zeros;
    assert DecimalValue(s[..7]) == 5;
    assert s[..7] == s[..|s| - 1];
  }

  /** "7721217800140" is a 13-digit bill whose digits are the demo prefix followed by 0. */
  lemma ExampleBillDigits()
    ensures IsNumeric("7721217800140") && |"7721217800140"| == BillLength
    ensures ToDigits("7721217800140") == DemoBillPrefix + [0]
  {
    assert AllDigits("7721217800140");
  }

  /** "5479210" is numeric and is padded to "0000005479210". */
  lemma ExamplePaymentPadding()
    ensures IsNumeric("5479210") && ZFill("5479210", BillLength) == "0000005479210"
  {
    assert AllDigits("5479210");
  }

  /** The digits of "0000005479210", whose first eight characters are "00000054". */
  lemma ExamplePaymentDigits()
    ensures ToDigits("0000005479210") == [0, 0, 0, 0, 0, 0, 5, 4, 7, 9, 2, 1, 0]
    ensures "0000005479210"[..8] == "00000054"
  {
    assert AllDigits("0000005479210");
  }

  /** "0000005" is numeric and is padded to "0000000000005". */
  lemma ZeroAmountPaymentPadding()
    ensures IsNumeric("0000005") && ZFill("0000005", BillLength) == "0000000000005"
  {
    assert AllDigits("0000005");
  }

  /** The digits of "0000000000005", whose first eight characters are all '0'. */
  lemma ZeroAmountPaymentDigits()
    ensures ToDigits("0000000000005") == [0, 0, 0, 0, 0, 0, 0, 0, 0, 0, 0, 0, 5]
    ensures forall i :: 0 <= i < 8 ==> "0000000000005"[i] == '0'
  {
    assert AllDigits("0000000000005");
  }

  /** The first five terms of the payment window of "0000000000005". */
  lemma ZeroAmountPaymentWindowHead()
    ensures WeightedSum([0, 0, 0, 0, 0, 0, 0, 0, 0, 0, 0, 0, 5], 12, 2, 5) == 0
  {
    var d := [0, 0, 0, 0, 0, 0, 0, 0, 0, 0, 0, 0, 5];
    assert WeightedSum(d, 12, 2, 1) == 0;
    assert WeightedSum(d, 12, 2, 2) == 0;
    assert WeightedSum(d, 12, 2, 3) == 0;
    assert WeightedSum(d, 12, 2, 4) == 0;
  }

  /** The payment window of "0000000000005", digits 10..0, sums to 0; its check digit is 0. */
  lemma ZeroAmountPaymentWindow()
    ensures ChecksumOf([0, 0, 0, 0, 0, 0, 0, 0, 0, 0, 0, 0, 5], 12, 2, 11) == 0
  {
    var d := [0, 0, 0, 0, 0, 0, 0, 0, 0, 0, 0, 0, 5];
    ZeroAmountPaymentWindowHead();
    assert WeightedSum(d, 12, 2, 6) == 0;
    assert WeightedSum(d, 12, 2, 7) == 0;
    assert WeightedSum(d, 12, 2, 8) == 0;
    assert WeightedSum(d, 12, 2, 9) == 0;
    assert WeightedSum(d, 12, 2, 10) == 0;
  }

  /** The digits of "7721217800140" and "0000005479210" pass all three checks. */
  lemma ExampleChecksPass()
    ensures var bd, pd := DemoBillPrefix + [0], [0, 0, 0, 0, 0, 0, 5, 4, 7, 9, 2, 1, 0];
            ValidateChecksum(bd, 12, 1, 12, bd[12])
            && ValidateChecksum(pd, 12, 2, 11, pd[11])
            && ValidateChecksum(bd + pd[5..12], 19, 0, 20, pd[12])
  {
    var bd := DemoBillPrefix + [0];
    var pd := [0, 0, 0, 0, 0, 0, 5, 4, 7, 9, 2, 1, 0];
    DemoBillWindow(0);
    ExamplePaymentWindow();
    assert bd == [7, 7, 2, 1, 2, 1, 7, 8, 0, 0, 1, 4, 0];
    assert pd[5..12] == [0, 5, 4, 7, 9, 2, 1];
    assert bd + pd[5..12] == [7, 7, 2, 1, 2, 1, 7, 8, 0, 0, 1, 4, 0, 0, 5, 4, 7, 9, 2, 1];
    ExampleCombinedWindow();
  }

  /** The digits of "7721217800140" and "0000000000005" pass all three checks. */
  lemma ZeroAmountChecksPass()
    ensures var bd, pd := DemoBillPrefix + [0], [0, 0, 0, 0, 0, 0, 0, 0, 0, 0, 0, 0, 5];
            ValidateChecksum(bd, 12, 1, 12, bd[12])
            && ValidateChecksum(pd, 12, 2, 11, pd[11])
            && ValidateChecksum(bd + pd[5..12], 19, 0, 20, pd[12])
  {
    var bd := DemoBillPrefix + [0];
    var pd := [0, 0, 0, 0, 0, 0, 0, 0, 0, 0, 0, 0, 5];
    DemoBillWindow(0);
    ZeroAmountPaymentWindow();
    assert bd == [7, 7, 2, 1, 2, 1, 7, 8, 0, 0, 1, 4, 0];
    assert pd[5..12] == [0, 0, 0, 0, 0, 0, 0];
    assert bd + pd[5..12] == [7, 7, 2, 1, 2, 1, 7, 8, 0, 0, 1, 4, 0, 0, 0, 0, 0, 0, 0, 0];
    ZeroAmountCombinedWindow();
  }

  /** Changing the demo bill's last digit to its check digit 0 gives a bill that, with the
      payment "5479210", passes all three stages: the padded payment is "0000005479210",
      the amount 54 gives the fee 54000, and bill digit 11 gives the type 4. */
  lemma AcceptedExample()
    ensures Validate("7721217800140", "5479210") == Valid("7721217800140", "0000005479210", 54000, 4)
  {
    var bill, payment := "7721217800140", "5479210";
    ExampleBillDigits();
    ExamplePaymentPadding();
    ExamplePaymentDigits();
    ExampleChecksPass();
    ExampleAmount();
    ValidateStageOrder(bill, payment);
  }

  /** A pair that passes all three stages with the amount "00000000": the payment
      "0000005" is rejected as a payment error. */
  lemma ZeroAmountExample()
    ensures Validate("7721217800140", "0000005") == ErrPayment
  {
    var bill, payment := "7721217800140", "0000005";
    ExampleBillDigits();
    ZeroAmountPaymentPadding();
    ZeroAmountPaymentDigits();
    ZeroAmountChecksPass();
    var amount := "0000000000005"[..8];
    DecimalValueZero(amount);
    ValidateStageOrder(bill, payment);
  }

  /** The non-digit bill is rejected before the payment is looked at; a short payment
      with a well-formed bill is a payment error. */
  lemma GateScenarios()
    ensures Validate("abc", "123") == ErrBill
    ensures Validate("", "5479210") == ErrBill
    ensures Validate("1234567890123", "12") == ErrPayment
    ensures Validate("1234567890123", "12a4567") == ErrPayment
  {
    assert !IsDigitChar("abc"[0]);
    assert !IsDigitChar("12a4567"[2]);
  }
}
