/** Turning the location argument of `get_alerts_history` and
    `get_air_raid_alert_status` into a numeric uid. The resolver's static tables
    are parameters: a name-to-uid map and a uid-to-title map, each partial. */
module Locations {
  import opened Wrappers
  import opened Decimal
  import opened Errors

  /** The `Union[int, str]` argument: a uid, or a text that is either all digits
      or a location name. */
  datatype LocationRef = Uid(uid: int) | Name(text: string)

  /** The table behind `resolve_uid`. */
  type UidTable = map<string, int>

  /** The table behind `resolve_location_title`. */
  type TitleTable = map<int, string>

  /** The uid the argument stands for: an int as-is, an all-digit string parsed as
      a decimal number (no table lookup), any other string looked up by name. */
  function ResolveUid(names: UidTable, loc: LocationRef): (r: Result<int, Failure>)
    ensures r.Err? <==> loc.Name? && !IsDigitString(loc.text) && loc.text !in names
    ensures r.Err? ==> r.error == LocationNotFound(loc.text)
    ensures loc.Uid? ==> r == Ok(loc.uid)
    ensures loc.Name? && IsDigitString(loc.text) ==> r == Ok(ParseDigits(loc.text))
    ensures loc.Name? && loc.text in names && !IsDigitString(loc.text) ==> r == Ok(names[loc.text])
  {
    match loc
    case Uid(uid) => Ok(uid)
    case Name(text) =>
      if IsDigitString(text) then Ok(ParseDigits(text))
      else if text in names then Ok(names[text])
      else Err(LocationNotFound(text))
  }

  /** `resolve_location_title`: the reverse lookup. */
  function ResolveTitle(titles: TitleTable, uid: int): (r: Result<string, Failure>)
    ensures r.Ok? <==> uid in titles
    ensures r.Ok? ==> r.value == titles[uid]
    ensures r.Err? ==> r.error == TitleNotFound(uid)
  {
    if uid in titles then Ok(titles[uid]) else Err(TitleNotFound(uid))
  }

  /** An all-digit string resolves the same whatever the name table holds, even
      when the table has an entry for that very string. */
  lemma DigitsBypassTable(names1: UidTable, names2: UidTable, text: string)
    requires IsDigitString(text)
    ensures ResolveUid(names1, Name(text)) == ResolveUid(names2, Name(text))
  {
  }

  /** The decimal text of a uid resolves to that uid: "12" stands for 12. */
  lemma NumericNameIsUid(names: UidTable, n: nat)
    ensures ResolveUid(names, Name(NatToString(n))) == ResolveUid(names, Uid(n))
  {
    ParseNatToString(n);
  }

  /** Leading zeros do not change the uid: "0012" stands for the same uid as "12". */
  lemma LeadingZerosSameUid(names: UidTable, k: nat, text: string)
    requires IsDigitString(text)
    ensures IsDigitString(Zeros(k) + text)
    ensures ResolveUid(names, Name(Zeros(k) + text)) == ResolveUid(names, Name(text))
  {
    ParseLeadingZeros(k, text);
  }

  /** A digit string without leading zeros is how its uid is spelled in endpoint
      paths: it renders back to itself. */
  lemma DigitNameCanonicalText(names: UidTable, text: string)
    requires Canonical(text)
    ensures ResolveUid(names, Name(text)).Ok?
    ensures IntToString(ResolveUid(names, Name(text)).value) == text
  {
    NatToStringParse(text);
  }
}
