/** The `BarcodeFormat` enum: the thirteen symbologies of the decode engine, each backed by the
    engine's integer format id, with a display label and the id-to-case lookup. */
module BarcodeFormats {
  import opened Wrappers

  datatype BarcodeFormat =
    | QRCode | Aztec | Codabar | Code39 | Code93 | Code128 | DataMatrix
    | ITF | Ean13 | Ean8 | Pdf417 | UpcA | UpcE

  /** The backing value of each case (the engine's wire code). */
  function Value(f: BarcodeFormat): int {
    match f
    case QRCode => 0
    case Aztec => 1
    case Codabar => 2
    case Code39 => 4
    case Code93 => 5
    case Code128 => 6
    case DataMatrix => 12
    case ITF => 8
    case Ean13 => 9
    case Ean8 => 11
    case Pdf417 => 10
    case UpcA => 14
    case UpcE => 15
  }

  /** The integer codes that name a case; 3, 7, 13 and everything outside 0..15 do not. */
  const AssignedValues: set<int> := {0, 1, 2, 4, 5, 6, 8, 9, 10, 11, 12, 14, 15}

  /** `BarcodeFormat::cases()`, in declaration order. */
  const Cases: seq<BarcodeFormat> :=
    [QRCode, Aztec, Codabar, Code39, Code93, Code128, DataMatrix, ITF, Ean13, Ean8, Pdf417, UpcA, UpcE]

  /** `getLabel`: the human-readable name of each case. */
  function Label(f: BarcodeFormat): string {
    match f
    case QRCode => "QR Code"
    case Aztec => "Aztec"
    case Codabar => "Codabar"
    case Code39 => "Code 39"
    case Code93 => "Code 93"
    case Code128 => "Code 128"
    case DataMatrix => "Data Matrix"
    case ITF => "ITF (Interleaved 2 of 5)"
    case Ean13 => "EAN-13"
    case Ean8 => "EAN-8"
    case Pdf417 => "PDF417"
    case UpcA => "UPC-A"
    case UpcE => "UPC-E"
  }

  /** `fromHtml5QrcodeFormat` (PHP `tryFrom`): the case backed by `v`, or null when no case is. */
  function FromHtml5QrcodeFormat(v: int): (r: Option<BarcodeFormat>)
    ensures r.Some? ==> Value(r.value) == v
    ensures r.None? <==> v !in AssignedValues
    ensures r.None? ==> forall f :: Value(f) != v
  {
    if v == 0 then Some(QRCode)
    else if v == 1 then Some(Aztec)
    else if v == 2 then Some(Codabar)
    else if v == 4 then Some(Code39)
    else if v == 5 then Some(Code93)
    else if v == 6 then Some(Code128)
    else if v == 8 then Some(ITF)
    else if v == 9 then Some(Ean13)
    else if v == 10 then Some(Pdf417)
    else if v == 11 then Some(Ean8)
    else if v == 12 then Some(DataMatrix)
    else if v == 14 then Some(UpcA)
    else if v == 15 then Some(UpcE)
    else None
  }

  /** The position of each case in declaration order. */
  function Ordinal(f: BarcodeFormat): nat {
    match f
    case QRCode => 0
    case Aztec => 1
    case Codabar => 2
    case Code39 => 3
    case Code93 => 4
    case Code128 => 5
    case DataMatrix => 6
    case ITF => 7
    case Ean13 => 8
    case Ean8 => 9
    case Pdf417 => 10
    case UpcA => 11
    case UpcE => 12
  }

  /** `cases()` lists every case, each at its own ordinal. */
  lemma CasesInOrder()
    ensures |Cases| == 13
    ensures forall i :: 0 <= i < |Cases| ==> Ordinal(Cases[i]) == i
    ensures forall f :: 0 <= Ordinal(f) < |Cases| && Cases[Ordinal(f)] == f
    ensures forall f :: f in Cases
  {
    forall f ensures f in Cases {
      assert Cases[Ordinal(f)] == f;
    }
  }

  /** The thirteen cases have pairwise distinct values. */
  lemma CaseValuesDistinct()
    ensures forall i, j :: 0 <= i < j < |Cases| ==> Value(Cases[i]) != Value(Cases[j])
  {
    CasesInOrder();
    forall i, j | 0 <= i < j < |Cases| ensures Value(Cases[i]) != Value(Cases[j]) {
      ValueInjective(Cases[i], Cases[j]);
    }
  }

  /** Every case is backed by an assigned code. */
  lemma ValueIsAssigned(f: BarcodeFormat)
    ensures Value(f) in AssignedValues
  {
    match f
    case QRCode =>
    case Aztec =>
    case Codabar =>
    case Code39 =>
    case Code93 =>
    case Code128 =>
    case DataMatrix =>
    case ITF =>
    case Ean13 =>
    case Ean8 =>
    case Pdf417 =>
    case UpcA =>
    case UpcE =>
  }

  /** The values of the cases are exactly the assigned codes. */
  lemma CaseValuesAreAssigned()
    ensures (set f | f in Cases :: Value(f)) == AssignedValues
  {
    CasesInOrder();
    var vs := set f | f in Cases :: Value(f);
    forall v | v in AssignedValues ensures v in vs {
      var f := FromHtml5QrcodeFormat(v).value;
      assert f in Cases && Value(f) == v;
    }
    forall v | v in vs ensures v in AssignedValues {
      var f :| f in Cases && Value(f) == v;
      ValueIsAssigned(f);
    }
  }

  /** Value is injective, so the enum is a partial bijection between codes and symbologies. */
  lemma ValueInjective(f: BarcodeFormat, g: BarcodeFormat)
    ensures Value(f) == Value(g) ==> f == g
  {
  }

  /** Round trip: looking up a case's own value gives the case back. */
  lemma FromValueRoundTrip(f: BarcodeFormat)
    ensures FromHtml5QrcodeFormat(Value(f)) == Some(f)
  {
  }

  /** Round trip the other way: a code that names a case is that case's value. */
  lemma ValueFromRoundTrip(v: int)
    requires v in AssignedValues
    ensures FromHtml5QrcodeFormat(v).Some? && Value(FromHtml5QrcodeFormat(v).value) == v
  {
  }

  /** The lookups exercised for invalid ids. */
  lemma InvalidIdsExample()
    ensures FromHtml5QrcodeFormat(3).None? && FromHtml5QrcodeFormat(7).None?
    ensures FromHtml5QrcodeFormat(-1).None? && FromHtml5QrcodeFormat(999).None?
  {
  }

  /** Labels are total and pairwise distinct. */
  lemma LabelsDistinct(f: BarcodeFormat, g: BarcodeFormat)
    ensures f != g ==> Label(f) != Label(g)
  {
  }
}
