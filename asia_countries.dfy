/**
 * The countries eligible as the locality of a `.asia` registrant, by ISO
 * code, grouped by the first letter of the code.
 */
module AsiaCountries {
  import Text

  predicate IsCountryCode(k: string)
  {
    |k| == 2 && Text.IsUpperAscii(k[0]) && Text.IsUpperAscii(k[1])
  }

  function CountriesA(): (m: map<string, string>)
    ensures forall k :: k in m ==> IsCountryCode(k) && k[0] == 'A'
  {
    map[
      "AF" := "Afghanistan",
      "AQ" := "Antarctica",
      "AM" := "Armenia",
      "AU" := "Australia",
      "AZ" := "Azerbaijan",
      "AE" := "United Arab Emirates"]
  }

  function CountriesB(): (m: map<string, string>)
    ensures forall k :: k in m ==> IsCountryCode(k) && k[0] == 'B'
  {
    map[
      "BH" := "Bahrain",
      "BD" := "Bangladesh",
      "BT" := "Bhutan",
      "BN" := "Brunei"]
  }

  function CountriesC(): (m: map<string, string>)
    ensures forall k :: k in m ==> IsCountryCode(k) && k[0] == 'C'
  {
    map[
      "CN" := "China",
      "CX" := "Christmas Island",
      "CC" := "Cocos (Keeling) Islands",
      "CK" := "Cook Islands",
      "CY" := "Cyprus"]
  }

  function CountriesF(): (m: map<string, string>)
    ensures forall k :: k in m ==> IsCountryCode(k) && k[0] == 'F'
  {
    map[
      "FJ" := "Fiji Islands",
      "FM" := "Micronesia"]
  }

  function CountriesG(): (m: map<string, string>)
    ensures forall k :: k in m ==> IsCountryCode(k) && k[0] == 'G'
  {
    map[
      "GE" := "Georgia"]
  }

  function CountriesH(): (m: map<string, string>)
    ensures forall k :: k in m ==> IsCountryCode(k) && k[0] == 'H'
  {
    map[
      "HM" := "Heard and McDonald Islands",
      "HK" := "Hong Kong S.A.R."]
  }

  function CountriesI(): (m: map<string, string>)
    ensures forall k :: k in m ==> IsCountryCode(k) && k[0] == 'I'
  {
    map[
      "IN" := "India",
      "ID" := "Indonesia",
      "IR" := "Iran",
      "IQ" := "Iraq",
      "IL" := "Israel"]
  }

  function CountriesJ(): (m: map<string, string>)
    ensures forall k :: k in m ==> IsCountryCode(k) && k[0] == 'J'
  {
    map[
      "JP" := "Japan",
      "JO" := "Jordan"]
  }

  function CountriesK(): (m: map<string, string>)
    ensures forall k :: k in m ==> IsCountryCode(k) && k[0] == 'K'
  {
    map[
      "KH" := "Cambodia",
      "KZ" := "Kazakhstan",
      "KI" := "Kiribati",
      "KR" := "Korea",
      "KP" := "Korea, North",
      "KW" := "Kuwait",
      "KG" := "Kyrgyzstan"]
  }

  function CountriesL(): (m: map<string, string>)
    ensures forall k :: k in m ==> IsCountryCode(k) && k[0] == 'L'
  {
    map[
      "LA" := "Laos",
      "LB" := "Lebanon",
      "LK" := "Sri Lanka"]
  }

  function CountriesM(): (m: map<string, string>)
    ensures forall k :: k in m ==> IsCountryCode(k) && k[0] == 'M'
  {
    map[
      "MO" := "Macau S.A.R.",
      "MY" := "Malaysia",
      "MV" := "Maldives",
      "MH" := "Marshall Islands",
      "MN" := "Mongolia",
      "MM" := "Myanmar"]
  }

  function CountriesN(): (m: map<string, string>)
    ensures forall k :: k in m ==> IsCountryCode(k) && k[0] == 'N'
  {
    map[
      "NR" := "Nauru",
      "NP" := "Nepal",
      "NZ" := "New Zealand",
      "NU" := "Niue",
      "NF" := "Norfolk Island"]
  }

  function CountriesO(): (m: map<string, string>)
    ensures forall k :: k in m ==> IsCountryCode(k) && k[0] == 'O'
  {
    map[
      "OM" := "Oman"]
  }

  function CountriesP(): (m: map<string, string>)
    ensures forall k :: k in m ==> IsCountryCode(k) && k[0] == 'P'
  {
    map[
      "PK" := "Pakistan",
      "PW" := "Palau",
      "PS" := "Palestinian Territory, Occupied",
      "PG" := "Papua new Guinea",
      "PH" := "Philippines"]
  }

  function CountriesQ(): (m: map<string, string>)
    ensures forall k :: k in m ==> IsCountryCode(k) && k[0] == 'Q'
  {
    map[
      "QA" := "Qatar"]
  }

  function CountriesS(): (m: map<string, string>)
    ensures forall k :: k in m ==> IsCountryCode(k) && k[0] == 'S'
  {
    map[
      "SA" := "Saudi Arabia",
      "SG" := "Singapore",
      "SB" := "Solomon Islands",
      "SY" := "Syria"]
  }

  function CountriesT(): (m: map<string, string>)
    ensures forall k :: k in m ==> IsCountryCode(k) && k[0] == 'T'
  {
    map[
      "TW" := "Taiwan",
      "TJ" := "Tajikistan",
      "TH" := "Thailand",
      "TL" := "Timor-Leste",
      "TK" := "Tokelau",
      "TO" := "Tonga",
      "TR" := "Turkey",
      "TM" := "Turkmenistan",
      "TV" := "Tuvalu"]
  }

  function CountriesU(): (m: map<string, string>)
    ensures forall k :: k in m ==> IsCountryCode(k) && k[0] == 'U'
  {
    map[
      "UZ" := "Uzbekistan"]
  }

  function CountriesV(): (m: map<string, string>)
    ensures forall k :: k in m ==> IsCountryCode(k) && k[0] == 'V'
  {
    map[
      "VU" := "Vanuatu",
      "VN" := "Vietnam"]
  }

  function CountriesW(): (m: map<string, string>)
    ensures forall k :: k in m ==> IsCountryCode(k) && k[0] == 'W'
  {
    map[
      "WS" := "Samoa"]
  }

  function CountriesY(): (m: map<string, string>)
    ensures forall k :: k in m ==> IsCountryCode(k) && k[0] == 'Y'
  {
    map[
      "YE" := "Yemen"]
  }

  /**
   * Joining codes whose first letters lie in `[first, last]` to codes whose
   * first letters lie in `[low, first)` keeps every key a code in `[low, last]`.
   */
  lemma JoinCountries(a: map<string, string>, b: map<string, string>, low: char, first: char, last: char)
    requires low <= first <= last
    requires forall k :: k in a ==> IsCountryCode(k) && low <= k[0] < first
    requires forall k :: k in b ==> IsCountryCode(k) && first <= k[0] <= last
    ensures forall k :: k in a + b ==> IsCountryCode(k) && low <= k[0] <= last
    ensures forall k :: k in a ==> k !in b
  {
  }

  function CountriesAtoF(): (m: map<string, string>)
    ensures forall k :: k in m ==> IsCountryCode(k) && 'A' <= k[0] <= 'F'
  {
    var m0 := CountriesA();
    JoinCountries(m0, CountriesB(), 'A', 'B', 'B');
    var m1 := m0 + CountriesB();
    JoinCountries(m1, CountriesC(), 'A', 'C', 'C');
    var m2 := m1 + CountriesC();
    JoinCountries(m2, CountriesF(), 'A', 'F', 'F');
    var m3 := m2 + CountriesF();
    m3
  }

  function CountriesGtoK(): (m: map<string, string>)
    ensures forall k :: k in m ==> IsCountryCode(k) && 'G' <= k[0] <= 'K'
  {
    var m0 := CountriesG();
    JoinCountries(m0, CountriesH(), 'G', 'H', 'H');
    var m1 := m0 + CountriesH();
    JoinCountries(m1, CountriesI(), 'G', 'I', 'I');
    var m2 := m1 + CountriesI();
    JoinCountries(m2, CountriesJ(), 'G', 'J', 'J');
    var m3 := m2 + CountriesJ();
    JoinCountries(m3, CountriesK(), 'G', 'K', 'K');
    var m4 := m3 + CountriesK();
    m4
  }

  function CountriesLtoO(): (m: map<string, string>)
    ensures forall k :: k in m ==> IsCountryCode(k) && 'L' <= k[0] <= 'O'
  {
    var m0 := CountriesL();
    JoinCountries(m0, CountriesM(), 'L', 'M', 'M');
    var m1 := m0 + CountriesM();
    JoinCountries(m1, CountriesN(), 'L', 'N', 'N');
    var m2 := m1 + CountriesN();
    JoinCountries(m2, CountriesO(), 'L', 'O', 'O');
    var m3 := m2 + CountriesO();
    m3
  }

  function CountriesPtoT(): (m: map<string, string>)
    ensures forall k :: k in m ==> IsCountryCode(k) && 'P' <= k[0] <= 'T'
  {
    var m0 := CountriesP();
    JoinCountries(m0, CountriesQ(), 'P', 'Q', 'Q');
    var m1 := m0 + CountriesQ();
    JoinCountries(m1, CountriesS(), 'P', 'S', 'S');
    var m2 := m1 + CountriesS();
    JoinCountries(m2, CountriesT(), 'P', 'T', 'T');
    var m3 := m2 + CountriesT();
    m3
  }

  function CountriesUtoY(): (m: map<string, string>)
    ensures forall k :: k in m ==> IsCountryCode(k) && 'U' <= k[0] <= 'Y'
  {
    var m0 := CountriesU();
    JoinCountries(m0, CountriesV(), 'U', 'V', 'V');
    var m1 := m0 + CountriesV();
    JoinCountries(m1, CountriesW(), 'U', 'W', 'W');
    var m2 := m1 + CountriesW();
    JoinCountries(m2, CountriesY(), 'U', 'Y', 'Y');
    var m3 := m2 + CountriesY();
    m3
  }
  function CountriesAtoK(): (m: map<string, string>)
    ensures forall k :: k in m ==> IsCountryCode(k) && 'A' <= k[0] <= 'K'
  {
    JoinCountries(CountriesAtoF(), CountriesGtoK(), 'A', 'G', 'K');
    CountriesAtoF() + CountriesGtoK()
  }

  function CountriesLtoT(): (m: map<string, string>)
    ensures forall k :: k in m ==> IsCountryCode(k) && 'L' <= k[0] <= 'T'
  {
    JoinCountries(CountriesLtoO(), CountriesPtoT(), 'L', 'P', 'T');
    CountriesLtoO() + CountriesPtoT()
  }

  function CountriesLtoY(): (m: map<string, string>)
    ensures forall k :: k in m ==> IsCountryCode(k) && 'L' <= k[0] <= 'Y'
  {
    JoinCountries(CountriesLtoT(), CountriesUtoY(), 'L', 'U', 'Y');
    CountriesLtoT() + CountriesUtoY()
  }

  /**
   * `_countryList`: the eligible countries by ISO code, as the union of the
   * codes starting with A to K and those starting with L to Y; the two halves
   * cannot share a code.
   */
  function CountryList(): (m: map<string, string>)
    ensures forall k :: k in m ==> IsCountryCode(k) && 'A' <= k[0] <= 'Y'
  {
    JoinCountries(CountriesAtoK(), CountriesLtoY(), 'A', 'L', 'Y');
    CountriesAtoK() + CountriesLtoY()
  }
}
