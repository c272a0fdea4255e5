/**
 * The report the controller posts when a lid closes, as the backend's
 * `update_bins` receives it. The controller identifies the compartments by
 * the numbers BIN_ORGANIC_ID and BIN_NON_ORGANIC_ID (1 and 2), serialised as
 * JSON numbers; the backend's table is keyed by the strings "0x001" and
 * "0x002".
 */
module Reporting {
  import opened Wrappers
  import opened Millis
  import LevelMonitor
  import opened ControllerSpec
  import opened Backend

  /** Decimal digits of a number, as a JSON number is written. */
  function DecimalText(n: nat): (s: string)
    ensures |s| >= 1
  {
    if n < 10 then [DigitChar(n)] else DecimalText(n / 10) + [DigitChar(n % 10)]
  }

  function DigitChar(d: nat): (c: char)
    requires d < 10
    ensures '0' <= c <= '9'
  {
    "0123456789"[d]
  }

  /** A decimal rendering holds digits only. */
  lemma {:induction false} DecimalTextDigits(n: nat)
    ensures forall i :: 0 <= i < |DecimalText(n)| ==> '0' <= DecimalText(n)[i] <= '9'
  {
    if n >= 10 {
      DecimalTextDigits(n / 10);
    }
  }

  /**
   * The backend's view of the report as the firmware sends it: the numeric
   * ids arrive as their decimal text.
   */
  function UpdateAsSent(r: BinReport): (u: BinUpdate)
    ensures forall i :: 0 <= i < |u.organicId| ==> '0' <= u.organicId[i] <= '9'
    ensures forall i :: 0 <= i < |u.nonOrganicId| ==> '0' <= u.nonOrganicId[i] <= '9'
    ensures u.organicWeight == r.organicWeight && u.nonOrganicWeight == r.nonOrganicWeight
  {
    DecimalTextDigits(r.organicId);
    DecimalTextDigits(r.nonOrganicId);
    BinUpdate(DecimalText(r.organicId), DecimalText(r.nonOrganicId),
              r.organicWeight, r.nonOrganicWeight, r.organicFull, r.nonOrganicFull,
              Some(r.timestamp))
  }

  /** Keys of the form "0x…", like the backend's. */
  predicate HexStyleKeys(db: Table)
  {
    forall k :: k in db ==> |k| >= 2 && k[1] == 'x'
  }

  /**
   * As sent, a report names no entry of the backend's table, so `update_bins`
   * answers success and changes nothing, for every id the controller could use.
   */
  lemma SentReportUpdatesNothing(db: Table, r: BinReport, now: string)
    requires HexStyleKeys(db)
    ensures ApplyUpdate(db, UpdateAsSent(r), now) == db
  {
    DecimalTextDigits(r.organicId);
    DecimalTextDigits(r.nonOrganicId);
  }

  /** The compartments of the table the backend starts with. */
  lemma InitialKeysAreHexStyle()
    ensures HexStyleKeys(INITIAL_BINS)
  {
  }

  const HEX_DIGITS: string := "0123456789ABCDEF"

  function HexDigit(d: nat): (c: char)
    requires d < 16
    ensures c in HEX_DIGITS
  {
    HEX_DIGITS[d]
  }

  /** Distinct digit values have distinct characters. */
  lemma HexDigitInjective(a: nat, b: nat)
    requires a < 16 && b < 16 && HexDigit(a) == HexDigit(b)
    ensures a == b
  {
  }

  /** A compartment id written as the backend keys it: "0x" and three hex digits. */
  function IdKey(id: nat): (k: string)
    requires id < 0x1000
    ensures |k| == 5 && k[..2] == "0x"
    ensures forall i :: 2 <= i < 5 ==> k[i] in HEX_DIGITS
  {
    "0x" + [HexDigit(id / 0x100), HexDigit(id / 0x10 % 0x10), HexDigit(id % 0x10)]
  }

  /** The controller's two ids, keyed this way, are the backend's two keys. */
  lemma ControllerIdsKeyTable()
    ensures IdKey(BIN_ORGANIC_ID) == ORGANIC_KEY && IdKey(BIN_NON_ORGANIC_ID) == NON_ORGANIC_KEY
  {
    assert HexDigit(0) == '0' && HexDigit(1) == '1' && HexDigit(2) == '2';
    assert IdKey(1) == "0x" + ['0', '0', '1'];
    assert IdKey(2) == "0x" + ['0', '0', '2'];
  }

  /** Different ids get different keys. */
  lemma IdKeyInjective(a: nat, b: nat)
    requires a < 0x1000 && b < 0x1000
    ensures IdKey(a) == IdKey(b) ==> a == b
  {
    if IdKey(a) == IdKey(b) {
      assert IdKey(a)[2] == IdKey(b)[2] && IdKey(a)[3] == IdKey(b)[3] && IdKey(a)[4] == IdKey(b)[4];
      HexDigitInjective(a / 0x100, b / 0x100);
      HexDigitInjective(a / 0x10 % 0x10, b / 0x10 % 0x10);
      HexDigitInjective(a % 0x10, b % 0x10);
      HexDigits(a);
      HexDigits(b);
    }
  }

  /** An id below 0x1000 is the sum of its three hex digits by place value. */
  lemma HexDigits(id: nat)
    requires id < 0x1000
    ensures id == id / 0x100 * 0x100 + id / 0x10 % 0x10 * 0x10 + id % 0x10
  {
  }

  /** The report with its ids keyed as the backend's table is. */
  function UpdateFromReport(r: BinReport): (u: BinUpdate)
    requires r.organicId < 0x1000 && r.nonOrganicId < 0x1000
    ensures u.organicId == IdKey(r.organicId) && u.nonOrganicId == IdKey(r.nonOrganicId)
    ensures u.organicWeight == r.organicWeight && u.nonOrganicWeight == r.nonOrganicWeight
  {
    BinUpdate(IdKey(r.organicId), IdKey(r.nonOrganicId),
              r.organicWeight, r.nonOrganicWeight, r.organicFull, r.nonOrganicFull,
              Some(r.timestamp))
  }

  /**
   * Keyed this way, a report from the controller updates both compartments of
   * the backend's table, and the level the backend derives from the reported
   * weight is the controller's own percentage.
   */
  lemma ReportUpdatesBothBins(db: Table, v: Vars, sample: int, now: U32, at: string)
    requires ORGANIC_KEY in db && NON_ORGANIC_KEY in db
    ensures var reading := LevelMonitor.Read(sample);
            var r := Report(UpdateBinLevel(v, sample), now);
            var t := ApplyUpdate(db, UpdateFromReport(r), at);
            && t[ORGANIC_KEY].weight == reading.weight && t[ORGANIC_KEY].full == reading.full
            && t[NON_ORGANIC_KEY].weight == reading.weight && t[NON_ORGANIC_KEY].full == reading.full
            && t[ORGANIC_KEY].level == reading.level && t[NON_ORGANIC_KEY].level == reading.level
  {
    var reading := LevelMonitor.Read(sample);
    var r := Report(UpdateBinLevel(v, sample), now);
    ControllerIdsKeyTable();
    assert (reading.weight / 10.0) * 100.0 == reading.level as real;
    assert LevelFromWeight(reading.weight) == reading.level;
  }
}
