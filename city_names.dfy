/** City names as the dashboard shows and looks them up (app/app.py:101-102 and
    120-121). The location registry stores names with `_` between words; the
    city selector shows them with spaces, and the chosen name is turned back
    into the registry form to find its coordinates and its ET file. */
module CityNames {

  /** Python's string replacement of every occurrence of one character by another. */
  function ReplaceChar(s: string, from: char, to: char): (r: string)
    ensures |r| == |s|
    ensures forall i :: 0 <= i < |s| ==> r[i] == (if s[i] == from then to else s[i])
  {
    if s == [] then []
    else [if s[0] == from then to else s[0]] + ReplaceChar(s[1..], from, to)
  }

  /** The name shown in the city selector: every underscore of the registry name
      becomes a space (app/app.py:102). */
  function DisplayName(city: string): (r: string)
    ensures |r| == |city| && '_' !in r
  {
    ReplaceChar(city, '_', ' ')
  }

  /** The registry key of a chosen name: every space becomes an underscore
      (app/app.py:121). */
  function LookupKey(shown: string): (r: string)
    ensures |r| == |shown| && ' ' !in r
  {
    ReplaceChar(shown, ' ', '_')
  }

  /** The selector's list of cities, one entry per registry row (app/app.py:101-102).
      No entry shows an underscore, and when no registry name contains a space,
      choosing entry i looks up registry row i. */
  function DisplayNames(cities: seq<string>): (r: seq<string>)
    ensures |r| == |cities|
    ensures forall i :: 0 <= i < |r| ==> '_' !in r[i]
    ensures (forall k :: 0 <= k < |cities| ==> ' ' !in cities[k]) ==>
              forall i :: 0 <= i < |r| ==> LookupKey(r[i]) == cities[i]
  {
    LookupKeysOfDisplayNames(cities);
    seq(|cities|, i requires 0 <= i < |cities| => DisplayName(cities[i]))
  }

  lemma LookupKeysOfDisplayNames(cities: seq<string>)
    ensures forall k :: 0 <= k < |cities| && ' ' !in cities[k] ==> LookupKey(DisplayName(cities[k])) == cities[k]
  {
    forall k | 0 <= k < |cities| && ' ' !in cities[k]
      ensures LookupKey(DisplayName(cities[k])) == cities[k]
    {
      LookupKeyOfDisplayName(cities[k]);
    }
  }

  /** A registry name without spaces is found again from its displayed form. */
  lemma LookupKeyOfDisplayName(city: string)
    requires ' ' !in city
    ensures LookupKey(DisplayName(city)) == city
  {
    var r := LookupKey(DisplayName(city));
    forall i | 0 <= i < |city|
      ensures r[i] == city[i]
    {
      assert city[i] != ' ';
    }
  }

  /** Distinct registry names without spaces are shown as distinct entries. */
  lemma DisplayNameInjective(c1: string, c2: string)
    requires ' ' !in c1 && ' ' !in c2
    requires DisplayName(c1) == DisplayName(c2)
    ensures c1 == c2
  {
    LookupKeyOfDisplayName(c1);
    LookupKeyOfDisplayName(c2);
  }

  /** A registry name that contains a space is not found again: "San Jose" would
      be shown as "San Jose" and looked up as "San_Jose". */
  lemma SpacedNameIsLost(city: string)
    requires ' ' in city
    ensures LookupKey(DisplayName(city)) != city
  {
    var i :| 0 <= i < |city| && city[i] == ' ';
    assert LookupKey(DisplayName(city))[i] == '_';
  }
}
