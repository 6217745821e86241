/**
 * The display formatters: French phone-number grouping and the status code
 * to badge colour and label maps.
 */
module Formatters {
  import opened Seqs
  import opened Entities

  // ---------------------------------------------------------------------
  // Phone numbers
  // ---------------------------------------------------------------------

  /** The characters `\d` matches: the ASCII digits. */
  predicate IsDigit(c: char)
  {
    '0' <= c <= '9'
  }

  function DigitTest(): char -> bool
  {
    (c: char) => IsDigit(c)
  }

  /** `phoneNumber.replace(/\D/g, '')`: the digits, in order. */
  function Digits(s: string): (r: string)
    ensures forall i :: 0 <= i < |r| ==> IsDigit(r[i])
    ensures |r| <= |s|
  {
    Filter(s, DigitTest())
  }

  /** `XX XX XX XX XX`: ten characters in five pairs separated by single spaces. */
  function Group(d: string): string
    requires |d| == 10
  {
    d[0..2] + " " + d[2..4] + " " + d[4..6] + " " + d[6..8] + " " + d[8..10]
  }

  /**
   * `formatPhoneNumber`: empty input gives `''`; input without exactly ten
   * digits is returned as it was; otherwise its digits are grouped.
   */
  function FormatPhoneNumber(phone: string): (r: string)
    ensures phone == "" ==> r == ""
    ensures phone != "" && |Digits(phone)| != 10 ==> r == phone
    ensures |Digits(phone)| == 10 ==> |r| == 14
  {
    if phone == "" then ""
    else
      var cleaned := Digits(phone);
      if |cleaned| != 10 then phone else Group(cleaned)
  }

  /** A string of digits keeps all its characters under `Digits`. */
  lemma DigitsOfDigits(d: string)
    requires forall i :: 0 <= i < |d| ==> IsDigit(d[i])
    ensures Digits(d) == d
  {
    FilterKeepsAll(d, DigitTest());
  }

  /** Appending a space and a run of digits appends just the digits. */
  lemma DigitsAfterSpace(x: string, piece: string)
    requires forall i :: 0 <= i < |piece| ==> IsDigit(piece[i])
    ensures Digits(x + " " + piece) == Digits(x) + piece
  {
    var p := DigitTest();
    assert Filter(" ", p) == "" by {
      assert " "[1..] == "";
    }
    DigitsOfDigits(piece);
    FilterAppend(x, " ", p);
    FilterAppend(x + " ", piece, p);
  }

  /** Grouping only inserts spaces: the digits of the grouped text are the digits grouped. */
  lemma DigitsOfGroup(d: string)
    requires |d| == 10
    requires forall i :: 0 <= i < |d| ==> IsDigit(d[i])
    ensures Digits(Group(d)) == d
  {
    var s1 := d[0..2];
    DigitsOfDigits(s1);
    var s2 := s1 + " " + d[2..4];
    DigitsAfterSpace(s1, d[2..4]);
    var s3 := s2 + " " + d[4..6];
    DigitsAfterSpace(s2, d[4..6]);
    var s4 := s3 + " " + d[6..8];
    DigitsAfterSpace(s3, d[6..8]);
    var s5 := s4 + " " + d[8..10];
    DigitsAfterSpace(s4, d[8..10]);
    assert s5 == Group(d);
    assert d[0..2] + d[2..4] + d[4..6] + d[6..8] + d[8..10] == d;
  }

  /**
   * With ten digits, the result is those digits in order with a space after
   * every second one but the last: dropping the spaces gives the digits back.
   */
  lemma FormatPhoneNumberGroups(phone: string)
    requires |Digits(phone)| == 10
    ensures var r := FormatPhoneNumber(phone);
      |r| == 14 && Digits(r) == Digits(phone) &&
      r[2] == ' ' && r[5] == ' ' && r[8] == ' ' && r[11] == ' '
  {
    DigitsOfGroup(Digits(phone));
  }

  /** Formatting a formatted number changes nothing. */
  lemma FormatPhoneNumberIdempotent(phone: string)
    ensures FormatPhoneNumber(FormatPhoneNumber(phone)) == FormatPhoneNumber(phone)
  {
    if phone != "" && |Digits(phone)| == 10 {
      DigitsOfGroup(Digits(phone));
    }
  }

  // ---------------------------------------------------------------------
  // Status badges
  // ---------------------------------------------------------------------

  const GrayBadge: string := "bg-gray-100 text-gray-800"

  /** The application and offer status codes the maps know. */
  predicate KnownStatus(status: string)
  {
    status in {Pending, InProgress, Accepted, Rejected, Open, Closed, Draft}
  }

  /** `getStatusColor`: the badge classes for a status; gray for any other code. */
  function GetStatusColor(status: string): (r: string)
    ensures !KnownStatus(status) ==> r == GrayBadge
  {
    if status == Pending then "bg-warning-100 text-warning-800"
    else if status == InProgress then "bg-primary-100 text-primary-800"
    else if status == Accepted then "bg-success-100 text-success-800"
    else if status == Rejected then "bg-error-100 text-error-800"
    else if status == Open then "bg-success-100 text-success-800"
    else if status == Closed then GrayBadge
    else if status == Draft then "bg-secondary-100 text-secondary-800"
    else GrayBadge
  }

  /**
   * The four application statuses get four different colours, none of them
   * the default; an accepted application and an open offer look alike, and
   * a closed offer looks like an unknown code.
   */
  lemma StatusColorsDistinguish()
    ensures forall s, t ::
      (s in {Pending, InProgress, Accepted, Rejected} && t in {Pending, InProgress, Accepted, Rejected} && s != t) ==>
      GetStatusColor(s) != GetStatusColor(t)
    ensures forall s :: s in {Pending, InProgress, Accepted, Rejected} ==> GetStatusColor(s) != GrayBadge
    ensures GetStatusColor(Accepted) == GetStatusColor(Open)
    ensures GetStatusColor(Closed) == GrayBadge
  {
  }

  /** `getStatusLabel`: the French label of a known status; any other code as it is. */
  function GetStatusLabel(status: string): (r: string)
    ensures !KnownStatus(status) ==> r == status
  {
    if status == Pending then "En attente"
    else if status == InProgress then "En cours"
    else if status == Accepted then "Accept\U{00E9}"
    else if status == Rejected then "Refus\U{00E9}"
    else if status == Open then "Ouvert"
    else if status == Closed then "Ferm\U{00E9}"
    else if status == Draft then "Brouillon"
    else status
  }

  /** The code a label stands for: the inverse of the label map on known codes. */
  function StatusOfLabel(text: string): (r: string)
    ensures KnownStatus(r) || r == text
  {
    if text == "En attente" then Pending
    else if text == "En cours" then InProgress
    else if text == "Accept\U{00E9}" then Accepted
    else if text == "Refus\U{00E9}" then Rejected
    else if text == "Ouvert" then Open
    else if text == "Ferm\U{00E9}" then Closed
    else if text == "Brouillon" then Draft
    else text
  }

  /**
   * Labels identify known codes: the label of a known code reads back as
   * that code, and no label is itself a code, so labelling a label (or
   * anything twice) changes nothing more.
   */
  lemma StatusLabelRoundTrip(status: string)
    ensures KnownStatus(status) ==> StatusOfLabel(GetStatusLabel(status)) == status
    ensures KnownStatus(status) ==> !KnownStatus(GetStatusLabel(status))
    ensures GetStatusLabel(GetStatusLabel(status)) == GetStatusLabel(status)
  {
  }
}
