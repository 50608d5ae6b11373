/**
 * `Usc3.comm_codes` and the lookup at the end of `_execute_command`: a response that
 * is a key of the table is replaced by its description, anything else is returned as
 * it is.
 */
module Status {
  import opened Text

  /** A Python value as the lookup sees it: text (`str`) or raw `bytes`. */
  datatype PyObj = Str(s: string) | Bytes(b: seq<byte>)

  /** The controller's status codes, keyed by their decimal text. */
  const CommCodes: map<string, string> := map[
    "0" := "Success",
    "1" := "Too many parameters",
    "2" := "Too few parameters",
    "3" := "Unknown command",
    "4" := "Job not valid",
    "5" := "Operation not allowed during marking",
    "6" := "Entity not found",
    "7" := "Not initialized",
    "8" := "Parameter out of range",
    "9" := "Internal error",
    "10" := "Operation not allowed",
    "11" := "The internal queue is full and cannot accept any more commands",
    "12" := "Command not available, probably due to missing Flash license",
    "13" := "Out of memory",
    "14" := "Job already exists",
    "15" := "File not found",
    "16" := "Command removed",
    "17" := "Wrong parameter type",
    "18" := "SN increment must be 0"
  ]

  /**
   * `response in comm_codes`: the keys are `str`, and in Python 3 a `bytes` value is
   * never equal to a `str`, so only text can be a key.
   */
  predicate IsKey(response: PyObj) {
    response.Str? && response.s in CommCodes
  }

  /** What `_execute_command` returns for `response`. */
  function Classify(response: PyObj): PyObj {
    if IsKey(response) then Str(CommCodes[response.s]) else response
  }

  /** Each code from 0 to 18 has an entry, and 0 means success. */
  lemma CodesHaveEntries()
    ensures forall i :: 0 <= i <= 18 ==> DecimalText(i) in CommCodes
    ensures CommCodes["0"] == "Success"
  {
    forall i | 0 <= i <= 18 ensures DecimalText(i) in CommCodes {
      if i == 0 {
        assert DecimalText(0) == "0";
      } else if i == 1 {
        assert DecimalText(1) == "1";
      } else if i == 2 {
        assert DecimalText(2) == "2";
      } else if i == 3 {
        assert DecimalText(3) == "3";
      } else if i == 4 {
        assert DecimalText(4) == "4";
      } else if i == 5 {
        assert DecimalText(5) == "5";
      } else if i == 6 {
        assert DecimalText(6) == "6";
      } else if i == 7 {
        assert DecimalText(7) == "7";
      } else if i == 8 {
        assert DecimalText(8) == "8";
      } else if i == 9 {
        assert DecimalText(9) == "9";
      } else if i == 10 {
        assert DecimalText(10) == "10";
      } else if i == 11 {
        assert DecimalText(11) == "11";
      } else if i == 12 {
        assert DecimalText(12) == "12";
      } else if i == 13 {
        assert DecimalText(13) == "13";
      } else if i == 14 {
        assert DecimalText(14) == "14";
      } else if i == 15 {
        assert DecimalText(15) == "15";
      } else if i == 16 {
        assert DecimalText(16) == "16";
      } else if i == 17 {
        assert DecimalText(17) == "17";
      } else {
        assert DecimalText(18) == "18";
      }
    }
  }

  /** Every key of the table is the decimal text of a code from 0 to 18. */
  lemma EntriesAreCodes()
    ensures forall k :: k in CommCodes ==> exists i :: 0 <= i <= 18 && DecimalText(i) == k
  {
    forall k | k in CommCodes ensures exists i :: 0 <= i <= 18 && DecimalText(i) == k {
      if k == "0" {
        assert DecimalText(0) == k;
      } else if k == "1" {
        assert DecimalText(1) == k;
      } else if k == "2" {
        assert DecimalText(2) == k;
      } else if k == "3" {
        assert DecimalText(3) == k;
      } else if k == "4" {
        assert DecimalText(4) == k;
      } else if k == "5" {
        assert DecimalText(5) == k;
      } else if k == "6" {
        assert DecimalText(6) == k;
      } else if k == "7" {
        assert DecimalText(7) == k;
      } else if k == "8" {
        assert DecimalText(8) == k;
      } else if k == "9" {
        assert DecimalText(9) == k;
      } else if k == "10" {
        assert DecimalText(10) == k;
      } else if k == "11" {
        assert DecimalText(11) == k;
      } else if k == "12" {
        assert DecimalText(12) == k;
      } else if k == "13" {
        assert DecimalText(13) == k;
      } else if k == "14" {
        assert DecimalText(14) == k;
      } else if k == "15" {
        assert DecimalText(15) == k;
      } else if k == "16" {
        assert DecimalText(16) == k;
      } else if k == "17" {
        assert DecimalText(17) == k;
      } else {
        assert DecimalText(18) == k;
      }
    }
  }

  /** The table's keys are exactly the decimal texts of 0 to 18. */
  lemma CommCodesKeys()
    ensures forall k :: k in CommCodes <==> exists i :: 0 <= i <= 18 && DecimalText(i) == k
  {
    CodesHaveEntries();
    EntriesAreCodes();
  }

  /**
   * A response is replaced by a description exactly when it is the text of a code
   * 0..18; everything else comes back unchanged.
   */
  lemma ClassifyCases(response: PyObj)
    ensures (exists i :: 0 <= i <= 18 && response == Str(DecimalText(i))) ==>
              IsKey(response) && Classify(response) == Str(CommCodes[response.s])
    ensures (forall i :: 0 <= i <= 18 ==> response != Str(DecimalText(i))) ==>
              Classify(response) == response
  {
    CommCodesKeys();
  }

  /** A `bytes` response, which is what `_recv` yields, is always returned raw. */
  lemma BytesReturnedRaw(b: seq<byte>)
    ensures Classify(Bytes(b)) == Bytes(b)
  {
  }

  /** Even read as text, a response that still ends in its LF never matches a key. */
  lemma TerminatedReturnedRaw(s: string)
    requires |s| >= 1 && s[|s| - 1] == '\n'
    ensures Classify(Str(s)) == Str(s)
  {
    CommCodesKeys();
    assert !NumeralChar(s[|s| - 1]);
  }
}
