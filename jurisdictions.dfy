/**
 * The jurisdiction picker (`components/jurisdiction-select.tsx`): the table
 * of 249 jurisdictions with the 11 most populous countries listed first,
 * the lookup of the selected entry, the list of the others, and the effect
 * that picks a default from the browser locale.
 *
 * The flags are display text and are not modelled. The codes of the table
 * are written grouped by their first letter, in table order: the group
 * `CodeGroup('A', "DEF")` stands for the codes "AD", "AE", "AF".
 */
module Jurisdictions {
  import opened Wrappers
  import opened Text
  import opened Seqs

  datatype Jurisdiction = Jurisdiction(code: string, name: string)

  /** The codes with first letter `first`, one per character of `seconds`. */
  datatype CodeGroup = CodeGroup(first: char, seconds: string)

  function GroupCodes(g: CodeGroup): (r: seq<string>)
    ensures |r| == |g.seconds|
    ensures forall j :: 0 <= j < |r| ==> r[j] == [g.first, g.seconds[j]]
  {
    seq(|g.seconds|, j requires 0 <= j < |g.seconds| => [g.first, g.seconds[j]])
  }

  /** The codes of the groups, group after group. */
  function CodesOf(groups: seq<CodeGroup>): seq<string> {
    if groups == [] then [] else GroupCodes(groups[0]) + CodesOf(groups[1..])
  }

  const GroupA: CodeGroup := CodeGroup('A', "DEFGILMOQRSTUWXZ")
  const GroupB: CodeGroup := CodeGroup('B', "ABDEFGHIJLMNOQRSTVWYZ")
  const GroupC: CodeGroup := CodeGroup('C', "ACDFGHIKLMNORUVWXYZ")
  const GroupD: CodeGroup := CodeGroup('D', "EJKMOZ")
  const GroupE: CodeGroup := CodeGroup('E', "CEGHRST")
  const GroupF: CodeGroup := CodeGroup('F', "IJKMOR")
  const GroupG: CodeGroup := CodeGroup('G', "ABDEFGHILMNPQRSTUWY")
  const GroupH: CodeGroup := CodeGroup('H', "KMNRTU")
  const GroupI: CodeGroup := CodeGroup('I', "DELMNOQRST")
  const GroupJ: CodeGroup := CodeGroup('J', "EMOP")
  const GroupK: CodeGroup := CodeGroup('K', "EGHIMNPRWYZ")
  const GroupL: CodeGroup := CodeGroup('L', "ABCIKRSTUVY")
  const GroupM: CodeGroup := CodeGroup('M', "ACDEFGHKLMNOPQRSTUVWXYZ")
  const GroupN: CodeGroup := CodeGroup('N', "ACEFGILOPRUZ")
  const GroupO: CodeGroup := CodeGroup('O', "M")
  const GroupP: CodeGroup := CodeGroup('P', "AEFGHKLMNRSTWY")
  const GroupQ: CodeGroup := CodeGroup('Q', "A")
  const GroupR: CodeGroup := CodeGroup('R', "EOSUW")
  const GroupS: CodeGroup := CodeGroup('S', "ABCDEGHIJKLMNORSTVXYZ")
  const GroupT: CodeGroup := CodeGroup('T', "CDFGHJKLMNORTVWZ")
  const GroupU: CodeGroup := CodeGroup('U', "AGMSYZ")
  const GroupV: CodeGroup := CodeGroup('V', "ACEGINU")
  const GroupW: CodeGroup := CodeGroup('W', "FS")
  const GroupY: CodeGroup := CodeGroup('Y', "ET")
  const GroupZ: CodeGroup := CodeGroup('Z', "AMW")

  const CodeGroups: seq<CodeGroup> := [
    GroupA, GroupB, GroupC, GroupD, GroupE, GroupF, GroupG, GroupH, GroupI,
    GroupJ, GroupK, GroupL, GroupM, GroupN, GroupO, GroupP, GroupQ, GroupR,
    GroupS, GroupT, GroupU, GroupV, GroupW, GroupY, GroupZ]

  /** The codes of `JURISDICTIONS`, in table order. */
  const Codes: seq<string> := CodesOf(CodeGroups)

  /** The names of `JURISDICTIONS`, in table order. */
  const Names: seq<string> := [
    "Andorra", "United Arab Emirates", "Afghanistan", "Antigua and Barbuda", "Anguilla",
    "Albania", "Armenia", "Angola", "Antarctica", "Argentina", "American Samoa", "Austria",
    "Australia", "Aruba", "\U{00C5}land Islands", "Azerbaijan", "Bosnia and Herzegovina",
    "Barbados", "Bangladesh", "Belgium", "Burkina Faso", "Bulgaria", "Bahrain", "Burundi",
    "Benin", "Saint Barth\U{00E9}lemy", "Bermuda", "Brunei", "Bolivia", "Caribbean Netherlands",
    "Brazil", "Bahamas", "Bhutan", "Bouvet Island", "Botswana", "Belarus", "Belize", "Canada",
    "Cocos Islands", "Democratic Republic of the Congo", "Central African Republic", "Republic of the Congo",
    "Switzerland", "C\U{00F4}te d'Ivoire", "Cook Islands", "Chile", "Cameroon", "China",
    "Colombia", "Costa Rica", "Cuba", "Cape Verde", "Cura\U{00E7}ao", "Christmas Island",
    "Cyprus", "Czech Republic", "Germany", "Djibouti", "Denmark", "Dominica", "Dominican Republic",
    "Algeria", "Ecuador", "Estonia", "Egypt", "Western Sahara", "Eritrea", "Spain", "Ethiopia",
    "Finland", "Fiji", "Falkland Islands", "Micronesia", "Faroe Islands", "France", "Gabon",
    "United Kingdom", "Grenada", "Georgia", "French Guiana", "Guernsey", "Ghana", "Gibraltar",
    "Greenland", "Gambia", "Guinea", "Guadeloupe", "Equatorial Guinea", "Greece", "South Georgia",
    "Guatemala", "Guam", "Guinea-Bissau", "Guyana", "Hong Kong", "Heard Island", "Honduras",
    "Croatia", "Haiti", "Hungary", "Indonesia", "Ireland", "Israel", "Isle of Man", "India",
    "British Indian Ocean Territory", "Iraq", "Iran", "Iceland", "Italy", "Jersey", "Jamaica",
    "Jordan", "Japan", "Kenya", "Kyrgyzstan", "Cambodia", "Kiribati", "Comoros", "Saint Kitts and Nevis",
    "North Korea", "South Korea", "Kuwait", "Cayman Islands", "Kazakhstan", "Laos", "Lebanon",
    "Saint Lucia", "Liechtenstein", "Sri Lanka", "Liberia", "Lesotho", "Lithuania", "Luxembourg",
    "Latvia", "Libya", "Morocco", "Monaco", "Moldova", "Montenegro", "Saint Martin", "Madagascar",
    "Marshall Islands", "North Macedonia", "Mali", "Myanmar", "Mongolia", "Macao", "Northern Mariana Islands",
    "Martinique", "Mauritania", "Montserrat", "Malta", "Mauritius", "Maldives", "Malawi",
    "Mexico", "Malaysia", "Mozambique", "Namibia", "New Caledonia", "Niger", "Norfolk Island",
    "Nigeria", "Nicaragua", "Netherlands", "Norway", "Nepal", "Nauru", "Niue", "New Zealand",
    "Oman", "Panama", "Peru", "French Polynesia", "Papua New Guinea", "Philippines", "Pakistan",
    "Poland", "Saint Pierre and Miquelon", "Pitcairn Islands", "Puerto Rico", "Palestine",
    "Portugal", "Palau", "Paraguay", "Qatar", "R\U{00E9}union", "Romania", "Serbia", "Russia",
    "Rwanda", "Saudi Arabia", "Solomon Islands", "Seychelles", "Sudan", "Sweden", "Singapore",
    "Saint Helena", "Slovenia", "Svalbard and Jan Mayen", "Slovakia", "Sierra Leone", "San Marino",
    "Senegal", "Somalia", "Suriname", "South Sudan", "S\U{00E3}o Tom\U{00E9} and Pr\U{00ED}ncipe",
    "El Salvador", "Sint Maarten", "Syria", "Eswatini", "Turks and Caicos Islands", "Chad",
    "French Southern Territories", "Togo", "Thailand", "Tajikistan", "Tokelau", "Timor-Leste",
    "Turkmenistan", "Tunisia", "Tonga", "Turkey", "Trinidad and Tobago", "Tuvalu", "Taiwan",
    "Tanzania", "Ukraine", "Uganda", "U.S. Minor Outlying Islands", "United States", "Uruguay",
    "Uzbekistan", "Vatican City", "Saint Vincent and the Grenadines", "Venezuela", "British Virgin Islands",
    "U.S. Virgin Islands", "Vietnam", "Vanuatu", "Wallis and Futuna", "Samoa", "Yemen",
    "Mayotte", "South Africa", "Zambia", "Zimbabwe"]

  /** Codes and names side by side. */
  function Table(codes: seq<string>, names: seq<string>): (r: seq<Jurisdiction>)
    ensures |r| == if |codes| <= |names| then |codes| else |names|
    ensures forall i :: 0 <= i < |r| ==> r[i] == Jurisdiction(codes[i], names[i])
  {
    var n := if |codes| <= |names| then |codes| else |names|;
    seq(n, i requires 0 <= i < n => Jurisdiction(codes[i], names[i]))
  }

  /** `JURISDICTIONS`. */
  const JurisdictionTable: seq<Jurisdiction> := Table(Codes, Names)

  /** `TOP_JURISDICTIONS`, by code and by name. */
  const TopCodes: seq<string> := ["CN", "IN", "GB", "US", "ID", "PK", "BR", "NG", "BD", "RU", "MX"]
  const TopNames: seq<string> := ["China", "India", "United Kingdom", "United States", "Indonesia", "Pakistan", "Brazil", "Nigeria", "Bangladesh", "Russia", "Mexico"]
  const TopTable: seq<Jurisdiction> := Table(TopCodes, TopNames)

  predicate AscendingChars(s: string) {
    forall j :: 0 <= j < |s| - 1 ==> s[j] < s[j + 1]
  }

  predicate Distinct(s: seq<string>) {
    forall i, j :: 0 <= i < j < |s| ==> s[i] != s[j]
  }

  /** Each group lists its second letters in strictly ascending order. */
  lemma GroupsSorted0()
    ensures AscendingChars(GroupA.seconds)
      && AscendingChars(GroupB.seconds)
      && AscendingChars(GroupC.seconds)
  {
  }

  lemma GroupsSorted1()
    ensures AscendingChars(GroupD.seconds)
      && AscendingChars(GroupE.seconds)
      && AscendingChars(GroupF.seconds)
  {
  }

  lemma GroupsSorted2()
    ensures AscendingChars(GroupG.seconds)
      && AscendingChars(GroupH.seconds)
      && AscendingChars(GroupI.seconds)
  {
  }

  lemma GroupsSorted3()
    ensures AscendingChars(GroupJ.seconds)
      && AscendingChars(GroupK.seconds)
      && AscendingChars(GroupL.seconds)
  {
  }

  lemma GroupsSorted4()
    ensures AscendingChars(GroupM.seconds)
      && AscendingChars(GroupN.seconds)
      && AscendingChars(GroupO.seconds)
  {
  }

  lemma GroupsSorted5()
    ensures AscendingChars(GroupP.seconds)
      && AscendingChars(GroupQ.seconds)
      && AscendingChars(GroupR.seconds)
  {
  }

  lemma GroupsSorted6()
    ensures AscendingChars(GroupS.seconds)
      && AscendingChars(GroupT.seconds)
      && AscendingChars(GroupU.seconds)
  {
  }

  lemma GroupsSorted7()
    ensures AscendingChars(GroupV.seconds)
      && AscendingChars(GroupW.seconds)
      && AscendingChars(GroupY.seconds)
  {
  }

  lemma GroupsSorted8()
    ensures AscendingChars(GroupZ.seconds)
  {
  }

  /** Ascending neighbours make the whole text strictly ascending. */
  lemma {:induction false} AscendingCharsPairwise(s: string)
    requires AscendingChars(s)
    ensures forall i, j :: 0 <= i < j < |s| ==> s[i] < s[j]
    decreases |s|
  {
    if |s| > 1 {
      AscendingCharsPairwise(s[1..]);
      forall i, j | 0 <= i < j < |s| ensures s[i] < s[j] {
        if i > 0 {
          assert s[1..][i - 1] < s[1..][j - 1];
        } else if j > 1 {
          assert s[0] < s[1] && s[1..][0] < s[1..][j - 1];
        }
      }
    }
  }

  /** The codes of a group are distinct and start with its letter. */
  lemma GroupCodesDistinct(g: CodeGroup)
    requires AscendingChars(g.seconds)
    ensures Distinct(GroupCodes(g))
    ensures forall i :: 0 <= i < |GroupCodes(g)| ==> |GroupCodes(g)[i]| == 2 && GroupCodes(g)[i][0] == g.first
  {
    AscendingCharsPairwise(g.seconds);
    var r := GroupCodes(g);
    forall i, j | 0 <= i < j < |r| ensures r[i] != r[j] {
      assert r[i][1] == g.seconds[i] && r[j][1] == g.seconds[j];
    }
  }

  /** Group letters ascend from one group to the next. */
  predicate LettersAscending(groups: seq<CodeGroup>) {
    forall k :: 0 <= k < |groups| - 1 ==> groups[k].first < groups[k + 1].first
  }

  /**
   * With ascending group letters and ascending second letters in every
   * group, the codes are distinct, and each starts with a letter at least
   * that of the first group.
   */
  lemma {:induction false} CodesOfDistinct(groups: seq<CodeGroup>)
    requires LettersAscending(groups)
    requires forall k :: 0 <= k < |groups| ==> AscendingChars(groups[k].seconds)
    ensures Distinct(CodesOf(groups))
    ensures forall x :: x in CodesOf(groups) ==> |x| == 2 && x[0] >= groups[0].first
    decreases |groups|
  {
    if groups != [] {
      var head := GroupCodes(groups[0]);
      var rest := CodesOf(groups[1..]);
      GroupCodesDistinct(groups[0]);
      CodesOfDistinct(groups[1..]);
      assert forall x :: x in rest ==> x[0] > groups[0].first;
      var all := head + rest;
      forall i, j | 0 <= i < j < |all| ensures all[i] != all[j] {
        if i < |head| && j >= |head| {
          assert all[j] in rest;
        }
      }
      forall x | x in all ensures |x| == 2 && x[0] >= groups[0].first {
        if x !in head {
          assert x in rest;
        }
      }
    }
  }

  /** The code at place `j` of group `g` is one of the codes. */
  lemma {:induction false} CodesOfMember(groups: seq<CodeGroup>, g: nat, j: nat)
    requires g < |groups| && j < |groups[g].seconds|
    ensures [groups[g].first, groups[g].seconds[j]] in CodesOf(groups)
    decreases g
  {
    if g == 0 {
      assert GroupCodes(groups[0])[j] == [groups[0].first, groups[0].seconds[j]];
    } else {
      CodesOfMember(groups[1..], g - 1, j);
    }
  }

  /** The codes of `JURISDICTIONS` are distinct. */
  lemma CodesDistinct()
    ensures Distinct(Codes)
  {
    GroupsSorted0();
    GroupsSorted1();
    GroupsSorted2();
    GroupsSorted3();
    GroupsSorted4();
    GroupsSorted5();
    GroupsSorted6();
    GroupsSorted7();
    GroupsSorted8();
    assert LettersAscending(CodeGroups);
    CodesOfDistinct(CodeGroups);
  }

  /** The code written at place `j` of group `g` of the table is one of its codes. */
  lemma CodeAt(g: nat, j: nat, code: string)
    requires g < |CodeGroups| && j < |CodeGroups[g].seconds|
    requires code == [CodeGroups[g].first, CodeGroups[g].seconds[j]]
    ensures code in Codes
  {
    CodesOfMember(CodeGroups, g, j);
  }

  /** Codes 0 to 3 of `TOP_JURISDICTIONS` are codes of `JURISDICTIONS`. */
  lemma TopCodeKnownA(k: nat)
    requires k < 4
    ensures TopCodes[k] in Codes
  {
    if k == 0 {
      CodeAt(2, 10, TopCodes[0]);
    } else if k == 1 {
      CodeAt(8, 4, TopCodes[1]);
    } else if k == 2 {
      CodeAt(6, 1, TopCodes[2]);
    } else {
      CodeAt(20, 3, TopCodes[3]);
    }
  }

  /** Codes 4 to 7 of `TOP_JURISDICTIONS` are codes of `JURISDICTIONS`. */
  lemma TopCodeKnownB(k: nat)
    requires 4 <= k < 8
    ensures TopCodes[k] in Codes
  {
    if k == 4 {
      CodeAt(8, 0, TopCodes[4]);
    } else if k == 5 {
      CodeAt(15, 5, TopCodes[5]);
    } else if k == 6 {
      CodeAt(1, 14, TopCodes[6]);
    } else {
      CodeAt(13, 4, TopCodes[7]);
    }
  }

  /** Codes 8 to 10 of `TOP_JURISDICTIONS` are codes of `JURISDICTIONS`. */
  lemma TopCodeKnownC(k: nat)
    requires 8 <= k < |TopCodes|
    ensures TopCodes[k] in Codes
  {
    if k == 8 {
      CodeAt(1, 2, TopCodes[8]);
    } else if k == 9 {
      CodeAt(17, 3, TopCodes[9]);
    } else {
      CodeAt(12, 20, TopCodes[10]);
    }
  }

  /** Every code of `TOP_JURISDICTIONS` is a code of `JURISDICTIONS`. */
  lemma TopCodesKnown()
    ensures forall k :: 0 <= k < |TopCodes| ==> TopCodes[k] in Codes
  {
    forall k | 0 <= k < |TopCodes| ensures TopCodes[k] in Codes {
      if k < 4 {
        TopCodeKnownA(k);
      } else if k < 8 {
        TopCodeKnownB(k);
      } else {
        TopCodeKnownC(k);
      }
    }
  }

  /** `navigator.language || "en-US"`. */
  function Locale(language: string): (r: string)
    ensures r != ""
    ensures language != "" ==> r == language
  {
    if language != "" then language else "en-US"
  }

  /** The second `-`-separated part of a locale, when there is one and it is not empty. */
  function Country(locale: string): (r: Option<string>)
    ensures r.Some? ==> r.value != "" && '-' !in r.value
  {
    var parts := Split(locale, '-');
    SplitPartsFree(locale, '-');
    if |parts| >= 2 && parts[1] != "" then Some(parts[1]) else None
  }

  /** The country of `language-country`, and of `language-country-rest`. */
  lemma CountryOf(language: string, country: string, rest: string)
    requires '-' !in language && '-' !in country
    ensures Country(language + "-" + country) == if country == "" then None else Some(country)
    ensures Country(language + "-" + country + "-" + rest) == if country == "" then None else Some(country)
  {
    SplitConcat(language, country, '-');
    SplitNoSeparator(language, '-');
    SplitNoSeparator(country, '-');
    assert language + "-" + country + "-" + rest == language + ['-'] + (country + ['-'] + rest);
    SplitConcat(language, country + ['-'] + rest, '-');
    SplitConcat(country, rest, '-');
  }

  /** A locale without `-` names no country. */
  lemma CountryWithoutSeparator(locale: string)
    requires '-' !in locale
    ensures Country(locale).None?
  {
    SplitNoSeparator(locale, '-');
  }

  /** `JURISDICTIONS.find((j) => j.code === code)`. */
  function FindByCode(table: seq<Jurisdiction>, code: string): (r: Option<Jurisdiction>)
    ensures r.Some? ==> r.value in table && r.value.code == code
    ensures r.None? <==> forall i :: 0 <= i < |table| ==> table[i].code != code
  {
    Find(table, (j: Jurisdiction) => j.code == code)
  }

  /**
   * The jurisdiction the locale suggests: the upper-cased country part when
   * the table has that code, and "US" otherwise.
   */
  function DetectedCode(language: string, table: seq<Jurisdiction>): (r: string)
    ensures r == "US" || exists i :: 0 <= i < |table| && table[i].code == r
    ensures var c := Country(Locale(language));
      r != "US" ==> c.Some? && r == ToUpper(c.value)
  {
    match Country(Locale(language))
    case None => "US"
    case Some(country) =>
      match FindByCode(table, ToUpper(country))
      case Some(j) => j.code
      case None => "US"
  }

  /** A locale whose upper-cased country part is a code of the table selects that code. */
  lemma DetectKnownCountry(language: string, country: string, table: seq<Jurisdiction>)
    requires '-' !in language && '-' !in country && country != ""
    requires exists i :: 0 <= i < |table| && table[i].code == ToUpper(country)
    ensures DetectedCode(language + "-" + country, table) == ToUpper(country)
  {
    CountryOf(language, country, "");
  }

  /** A locale whose country part is not a code of the table falls back to "US". */
  lemma DetectUnknownCountry(language: string, country: string, table: seq<Jurisdiction>)
    requires '-' !in language && '-' !in country
    requires forall i :: 0 <= i < |table| ==> table[i].code != ToUpper(country)
    ensures DetectedCode(language + "-" + country, table) == "US"
  {
    CountryOf(language, country, "");
  }

  /** A locale without a country part, or no locale at all, gives "US". */
  lemma DetectWithoutCountry(language: string, table: seq<Jurisdiction>)
    requires '-' !in language
    ensures DetectedCode(language, table) == "US"
    ensures DetectedCode("", table) == "US"
  {
    if language != "" {
      CountryWithoutSeparator(language);
    }
    CountryOf("en", "US", "");
    assert Locale("") == "en" + "-" + "US";
  }

  /** Only the second part counts: in `zh-Hant-TW` the country tried is "HANT", not "TW". */
  lemma DetectSecondPartOnly(language: string, second: string, rest: string, table: seq<Jurisdiction>)
    requires '-' !in language && '-' !in second && second != ""
    ensures DetectedCode(language + "-" + second + "-" + rest, table) ==
      if exists i :: 0 <= i < |table| && table[i].code == ToUpper(second) then ToUpper(second) else "US"
  {
    CountryOf(language, second, rest);
  }

  /** The entry of the selected code, shown in the trigger button when there is one. */
  function SelectedData(table: seq<Jurisdiction>, selected: string): (r: Option<Jurisdiction>)
    ensures r.Some? ==> r.value in table && r.value.code == selected
    ensures r.None? <==> forall i :: 0 <= i < |table| ==> table[i].code != selected
  {
    FindByCode(table, selected)
  }

  /** `otherJurisdictions`: the entries whose code is not one of the top entries, in table order. */
  function Others(top: seq<Jurisdiction>, all: seq<Jurisdiction>): (r: seq<Jurisdiction>)
    ensures forall j :: j in r <==> j in all && FindByCode(top, j.code).None?
  {
    Filter(all, (j: Jurisdiction) => FindByCode(top, j.code).None?)
  }

  /**
   * The two groups of the list share no code, and every entry of the table
   * is offered in one of them: among the top entries, or among the others.
   */
  lemma GroupsCoverTable(top: seq<Jurisdiction>, all: seq<Jurisdiction>, k: nat)
    requires k < |all|
    ensures all[k] in Others(top, all) <==> forall i :: 0 <= i < |top| ==> top[i].code != all[k].code
    ensures forall j, i :: j in Others(top, all) && 0 <= i < |top| ==> top[i].code != j.code
  {
  }

  /** The picker's state: the selected code and whether the list is open. */
  class Selector {
    var selected: string
    var open: bool

    constructor ()
      ensures selected == "" && !open
    {
      selected := "";
      open := false;
    }

    /**
     * The locale effect: a given value is taken as the selection and not
     * reported; without a value and without a browser nothing happens;
     * otherwise the detected code is selected and reported to the parent.
     */
    method Detect(value: string, language: Option<string>, table: seq<Jurisdiction>) returns (reported: Option<string>)
      modifies this`selected
      ensures value != "" ==> selected == value && reported.None?
      ensures value == "" && language.None? ==> selected == old(selected) && reported.None?
      ensures value == "" && language.Some? ==>
        selected == DetectedCode(language.value, table) && reported == Some(selected)
    {
      if value != "" {
        selected := value;
        return None;
      }
      if language.None? {
        return None;
      }
      var code := DetectedCode(language.value, table);
      selected := code;
      reported := Some(code);
    }

    /** Picking an entry from either group: it is selected and reported, and the list closes. */
    method Choose(j: Jurisdiction) returns (reported: string)
      modifies this
      ensures selected == j.code && reported == j.code && !open
    {
      selected := j.code;
      reported := j.code;
      open := false;
    }

    /** Opening or closing the list. */
    method SetOpen(o: bool)
      modifies this`open
      ensures open == o
    {
      open := o;
    }
  }
}
