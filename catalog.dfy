/**
 * The event catalog: for each event identifier, its display metadata, the
 * ordered list of secret codes printed on the QR images, and the clue text
 * each code unlocks.
 */
module Catalog {
  import opened Seqs

  datatype EventInfo = EventInfo(
    title: string,
    description: string,
    host: string,
    orderedCodes: seq<string>,
    clues: map<string, string>)

  /** ASCII upper-casing of one character; every other character is kept. */
  function UpperChar(c: char): char {
    if 'a' <= c <= 'z' then (c as int - 32) as char else c
  }

  /** `String.prototype.toUpperCase`, restricted to the ASCII letters. */
  function ToUpper(s: string): (r: string)
    ensures |r| == |s|
    ensures forall i :: 0 <= i < |s| ==> r[i] == UpperChar(s[i])
  {
    if s == [] then [] else [UpperChar(s[0])] + ToUpper(s[1..])
  }

  predicate IsUpper(s: string) {
    forall i :: 0 <= i < |s| ==> !('a' <= s[i] <= 'z')
  }

  /** Upper-casing yields upper case and leaves upper case alone, so normalising twice is normalising once. */
  lemma UpperIsNormal(s: string)
    ensures IsUpper(ToUpper(s))
    ensures IsUpper(s) ==> ToUpper(s) == s
    ensures ToUpper(ToUpper(s)) == ToUpper(s)
  {
    var u := ToUpper(s);
    assert IsUpper(s) ==> u == s by {
      if IsUpper(s) {
        assert forall i :: 0 <= i < |s| ==> u[i] == s[i];
      }
    }
    assert ToUpper(u) == u by {
      assert forall i :: 0 <= i < |u| ==> ToUpper(u)[i] == u[i];
    }
  }

  predicate DistinctCodes(codes: seq<string>) {
    forall i, j :: 0 <= i < j < |codes| ==> codes[i] != codes[j]
  }

  /**
   * What the shipped catalog satisfies: at least one code, no code twice,
   * every code upper case with a non-empty clue, and no clue outside the
   * ordered list.
   */
  predicate WellFormed(info: EventInfo) {
    && |info.orderedCodes| > 0
    && DistinctCodes(info.orderedCodes)
    && (forall c :: c in info.clues ==> c in info.orderedCodes)
    && (forall i :: 0 <= i < |info.orderedCodes| ==> info.orderedCodes[i] in info.clues)
    && (forall i :: 0 <= i < |info.orderedCodes| ==> IsUpper(info.orderedCodes[i]))
    && (forall c :: c in info.clues ==> info.clues[c] != "")
  }

  /** In a well-formed event the code printed at position k is found at position k. */
  lemma CodeAtIndex(info: EventInfo, k: nat)
    requires WellFormed(info) && k < |info.orderedCodes|
    ensures IndexOf(info.orderedCodes, info.orderedCodes[k]) == k
  {
    var codes := info.orderedCodes;
    assert codes[k] !in codes[..k] by {
      forall j | 0 <= j < k ensures codes[..k][j] != codes[k] { }
    }
    IndexOfIsFirst(codes, codes[k], k);
  }

  /** In a well-formed event every code that has a clue has a position. */
  lemma ClueHasPosition(info: EventInfo, code: string)
    requires WellFormed(info) && code in info.clues
    ensures 0 <= IndexOf(info.orderedCodes, code)
  {
  }

  const GLOBAL_LEADERS := "global-leaders"

  const SOURCE_CODES: seq<string> := ["HEARTYHANGI", "MUSSELMAD", "ADAMSMALAY", "PRICKLYPEAR"]

  const SOURCE_CLUES: map<string, string> := map[
    "HEARTYHANGI" := "Hearty Hangi: Tradition below ground and warm above",
    "MUSSELMAD" := "Mussel Madness: Flex your crazy sea creature",
    "ADAMSMALAY" := "Adam's Malaysian Noodles: First man's feast with a Southeast twist",
    "PRICKLYPEAR" := "Prickly Pear: Spikes guard the sweetest secret"
  ]

  const SOURCE_EVENT := EventInfo(
    "Riccarton Market Amazing Race",
    "Team up with your friends or go solo for an Amazing Race tour around Riccarton Market, hosted by the UC Global Leaders. Scan each QR code to get a hint leading to the next one. Complete the course as fast as you can and the quickest time wins a reward.",
    "UC Global Leaders",
    SOURCE_CODES,
    SOURCE_CLUES)

  /** The catalog the server is deployed with: one event of four codes. */
  function SourceEvents(): map<string, EventInfo> {
    map[GLOBAL_LEADERS := SOURCE_EVENT]
  }

  lemma SourceEventsWellFormed()
    ensures SourceEvents().Keys == {GLOBAL_LEADERS}
    ensures WellFormed(SourceEvents()[GLOBAL_LEADERS])
    ensures |SourceEvents()[GLOBAL_LEADERS].orderedCodes| == 4
  {
    SourceCodesUpper();
    SourceCodesDistinct();
    SourceCluesMatch();
  }

  lemma SourceCodesUpper()
    ensures forall i :: 0 <= i < |SOURCE_CODES| ==> IsUpper(SOURCE_CODES[i])
  {
    var codes := SOURCE_CODES;
    assert IsUpper(codes[0]);
    assert IsUpper(codes[1]);
    assert IsUpper(codes[2]);
    assert IsUpper(codes[3]);
  }

  lemma SourceCodesDistinct()
    ensures DistinctCodes(SOURCE_CODES)
  {
    var codes := SOURCE_CODES;
    assert codes[0][0] != codes[2][0] && codes[0][0] != codes[3][0] && codes[2][0] != codes[3][0];
  }

  lemma SourceCluesMatch()
    ensures forall c :: c in SOURCE_CLUES ==> c in SOURCE_CODES
    ensures forall i :: 0 <= i < |SOURCE_CODES| ==> SOURCE_CODES[i] in SOURCE_CLUES
    ensures forall c :: c in SOURCE_CLUES ==> SOURCE_CLUES[c] != ""
  {
    var codes := SOURCE_CODES;
    assert SOURCE_CLUES.Keys == {codes[0], codes[1], codes[2], codes[3]};
  }
}
