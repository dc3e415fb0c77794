/** The QR scanner: the mapping from a decoded payload to a punch kind, and the
    rule that refuses a scan which repeats the employee's latest punch. */
module QrScanner {
  import opened Common
  import opened Text
  import opened Attendance

  /** The punch kind a lower-cased, trimmed payload names directly: the four kind
      texts, plus "entry" for a check-in and "exit" for a check-out. */
  function WordKind(lower: string): (r: Option<Kind>)
    ensures r.Some? ==> Unpadded(lower)
    ensures r.Some? ==> lower == KindText(r.value) || (r.value == CheckIn && lower == "entry")
                                                   || (r.value == CheckOut && lower == "exit")
  {
    if lower == "check-in" || lower == "entry" then Some(CheckIn)
    else if lower == "check-out" || lower == "exit" then Some(CheckOut)
    else if lower == "lunch-start" then Some(LunchStart)
    else if lower == "lunch-end" then Some(LunchEnd)
    else None
  }

  /** The kind whose text is exactly `t`. */
  function KindOfText(t: string): (r: Option<Kind>)
    ensures r.Some? ==> KindText(r.value) == t
  {
    if t == "check-in" then Some(CheckIn)
    else if t == "check-out" then Some(CheckOut)
    else if t == "lunch-start" then Some(LunchStart)
    else if t == "lunch-end" then Some(LunchEnd)
    else None
  }

  /** Every kind is recognised by its own text. */
  lemma KindOfTextRoundTrip(k: Kind)
    ensures KindOfText(KindText(k)) == Some(k)
  {
  }

  /** `mapQrDataToTransactionType`. `parseType` stands for `JSON.parse`: the
      string `type` property of the object the payload parses to, if it parses
      to one that has it. */
  function MapQrData(qrData: string, parseType: string -> Option<string>): Option<Kind>
  {
    var w := WordKind(Trim(ToLower(qrData)));
    if w.Some? then w
    else if parseType(qrData).Some? then KindOfText(ToLower(parseType(qrData).value))
    else None
  }

  /** A payload is read without regard to ASCII case or surrounding whitespace,
      and the words it names are never sent to the JSON parser. */
  lemma WordsIgnoreCaseAndPadding(a: string, s: string, b: string, parseType: string -> Option<string>)
    requires AllSpaces(a) && AllSpaces(b) && WordKind(ToLower(s)).Some?
    ensures MapQrData(a + s + b, parseType) == WordKind(ToLower(s))
  {
    ToLowerPadded(a, s, b);
    TrimPadded(a, ToLower(s), b);
  }

  /** A kind's own text, in any case and with any surrounding whitespace, maps
      to that kind; so do "entry" and "exit". */
  lemma KindTextsMap(k: Kind, a: string, s: string, b: string, parseType: string -> Option<string>)
    requires AllSpaces(a) && AllSpaces(b)
    requires ToLower(s) == KindText(k) || (k == CheckIn && ToLower(s) == "entry")
                                        || (k == CheckOut && ToLower(s) == "exit")
    ensures MapQrData(a + s + b, parseType) == Some(k)
  {
    if ToLower(s) == KindText(k) {
      WordOfKindText(k);
    }
    WordsIgnoreCaseAndPadding(a, s, b, parseType);
  }

  lemma WordOfKindText(k: Kind)
    ensures WordKind(KindText(k)) == Some(k)
  {
  }

  /** A payload that is not one of the words maps to the kind named by its JSON
      `type`, lower-cased but not trimmed, and to nothing when there is none. */
  lemma JsonTypeMaps(qrData: string, parseType: string -> Option<string>)
    requires WordKind(Trim(ToLower(qrData))).None?
    ensures MapQrData(qrData, parseType).Some? <==>
      parseType(qrData).Some? && exists k: Kind :: KindText(k) == ToLower(parseType(qrData).value)
    ensures MapQrData(qrData, parseType).Some? ==>
      KindText(MapQrData(qrData, parseType).value) == ToLower(parseType(qrData).value)
  {
    if parseType(qrData).Some? && exists k: Kind :: KindText(k) == ToLower(parseType(qrData).value) {
      var k: Kind :| KindText(k) == ToLower(parseType(qrData).value);
      KindOfTextRoundTrip(k);
    }
  }

  /** The mapped kind is always named by the payload: by its trimmed, lower-cased
      text, or by its JSON `type`. */
  lemma MappedKindIsNamed(qrData: string, parseType: string -> Option<string>)
    ensures var r := MapQrData(qrData, parseType); var lower := Trim(ToLower(qrData));
      r.Some? ==>
        || lower == KindText(r.value)
        || (r.value == CheckIn && lower == "entry")
        || (r.value == CheckOut && lower == "exit")
        || (parseType(qrData).Some? && ToLower(parseType(qrData).value) == KindText(r.value))
  {
  }

  /** A JSON `type` is not trimmed: one that starts with whitespace maps to
      nothing. */
  lemma JsonTypeIsNotTrimmed(qrData: string, parseType: string -> Option<string>)
    requires WordKind(Trim(ToLower(qrData))).None?
    requires parseType(qrData).Some? && parseType(qrData).value != [] && IsSpace(parseType(qrData).value[0])
    ensures MapQrData(qrData, parseType) == None
  {
    var t := ToLower(parseType(qrData).value);
    assert IsSpace(t[0]);
    forall k: Kind ensures KindText(k) != t {
      KindTextStartsWithLetter(k);
    }
  }

  lemma KindTextStartsWithLetter(k: Kind)
    ensures KindText(k) != [] && 'a' <= KindText(k)[0] <= 'z'
  {
  }

  /** The guard of the scan callback: a check-in right after a check-in, and any
      other punch right after a check-out, is refused. */
  predicate Refused(latest: Option<Kind>, t: Kind)
  {
    || (latest == Some(CheckIn) && t == CheckIn)
    || (latest == Some(CheckOut) && (t == CheckOut || t == LunchStart || t == LunchEnd))
  }

  /** The acceptance rule as a table of allowed successors: anything but a second
      check-in after a check-in, only a check-in after a check-out, anything after
      a lunch punch or when there is no punch yet. */
  lemma RefusedTable(latest: Option<Kind>, t: Kind)
    ensures !Refused(latest, t) <==>
      match latest
      case None => true
      case Some(CheckIn) => t != CheckIn
      case Some(CheckOut) => t == CheckIn
      case Some(LunchStart) => true
      case Some(LunchEnd) => true
  {
  }

  /** What a scan shows: the kind passed on, or why it was refused. */
  datatype ScanResult = Accepted(kind: Kind) | AlreadyCheckedIn | AlreadyCheckedOut | InvalidCode

  /** The outcome of one decoded payload given the latest punch. */
  function Outcome(decodedText: string, latest: Option<Kind>, parseType: string -> Option<string>): ScanResult
  {
    var t := MapQrData(decodedText, parseType);
    if t.None? then InvalidCode
    else if latest == Some(CheckIn) && t.value == CheckIn then AlreadyCheckedIn
    else if latest == Some(CheckOut) && (t.value == CheckOut || t.value == LunchStart || t.value == LunchEnd) then
      AlreadyCheckedOut
    else Accepted(t.value)
  }

  /** A scan is passed on exactly when its payload maps to a kind the latest
      punch does not refuse; an unreadable payload is never passed on. */
  lemma OutcomeAccepts(decodedText: string, latest: Option<Kind>, parseType: string -> Option<string>)
    ensures var o := Outcome(decodedText, latest, parseType); var t := MapQrData(decodedText, parseType);
      && (o.Accepted? <==> t.Some? && !Refused(latest, t.value))
      && (o.Accepted? ==> t == Some(o.kind))
      && (t.None? <==> o == InvalidCode)
  {
  }

  /** The scanner's state: whether the camera is scanning, the last result shown,
      and the scans passed on to `onSuccessfulScan`, in order. */
  class Scanner {
    var isActive: bool
    var scanResult: Option<ScanResult>
    var forwarded: seq<(Kind, string)>

    constructor ()
      ensures !isActive && scanResult == None && forwarded == []
    {
      isActive := false;
      scanResult := None;
      forwarded := [];
    }

    /** `qrCodeSuccessCallback`: ignored once the effect is cancelled; otherwise
        stops the camera, and either passes the scan on or shows why not. */
    method OnDecoded(decodedText: string, latest: Option<Kind>, parseType: string -> Option<string>, cancelled: bool)
      modifies this
      ensures cancelled ==> isActive == old(isActive) && scanResult == old(scanResult) && forwarded == old(forwarded)
      ensures !cancelled ==> !isActive && scanResult == Some(Outcome(decodedText, latest, parseType))
      ensures !cancelled ==>
        forwarded == old(forwarded) + (match Outcome(decodedText, latest, parseType)
                                       case Accepted(k) => [(k, decodedText)]
                                       case _ => [])
    {
      if cancelled {
        return;
      }
      isActive := false;
      var transactionType := MapQrData(decodedText, parseType);
      if transactionType.Some? {
        var t := transactionType.value;
        if latest.Some? {
          if latest.value == CheckIn && t == CheckIn {
            scanResult := Some(AlreadyCheckedIn);
            return;
          }
          if latest.value == CheckOut && (t == CheckOut || t == LunchStart || t == LunchEnd) {
            scanResult := Some(AlreadyCheckedOut);
            return;
          }
        }
        forwarded := forwarded + [(t, decodedText)];
        scanResult := Some(Accepted(t));
      } else {
        scanResult := Some(InvalidCode);
      }
    }
  }
}
