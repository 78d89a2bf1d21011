/**
 * The vocabulary shared by every component: the supported countries, their
 * names and statistics keys, and the configuration of one scrape target.
 */
module Models {
  import opened Wrappers

  /** The closed set of supported countries. */
  datatype Country = CANADA | MEXICO | CHINA {

    /** The member's name, `country.name`: what the dataset stores in its `Country` column. */
    function Name(): (r: string)
      ensures |r| > 0
    {
      match this
      case CANADA => "CANADA"
      case MEXICO => "MEXICO"
      case CHINA => "CHINA"
    }

    /** The member's value under `StrEnum` with `auto()`: its name in lower case. */
    function Value(): string {
      match this
      case CANADA => "canada"
      case MEXICO => "mexico"
      case CHINA => "china"
    }
  }

  /** Every country, each once. */
  const AllCountries: seq<Country> := [CANADA, MEXICO, CHINA]

  /** There are exactly three countries, and no other value of the type. */
  lemma CountriesClosed(c: Country)
    ensures c in AllCountries
    ensures |AllCountries| == 3 && AllCountries[0] != AllCountries[1] && AllCountries[1] != AllCountries[2] && AllCountries[0] != AllCountries[2]
  {
  }

  /** Names tell countries apart. */
  lemma NameInjective(c: Country, d: Country)
    ensures c.Name() == d.Name() ==> c == d
  {
    if c != d {
      assert c.Name()[1] != d.Name()[1];
    }
  }

  /** ASCII lower case of one character, as `str.lower()` does for the letters A to Z. */
  function LowerChar(c: char): (r: char)
    ensures 'A' <= c <= 'Z' ==> 'a' <= r <= 'z' && r as int - c as int == 32
    ensures !('A' <= c <= 'Z') ==> r == c
  {
    if 'A' <= c <= 'Z' then (c as int + 32) as char else c
  }

  /** `str.lower()` over ASCII text. */
  function Lower(s: string): (r: string)
    ensures |r| == |s|
    ensures forall i :: 0 <= i < |s| ==> r[i] == LowerChar(s[i])
  {
    seq(|s|, i requires 0 <= i < |s| => LowerChar(s[i]))
  }

  /** The `StrEnum` value of a country is the lower-cased `Enum` name of it. */
  lemma ValueIsLowerName(c: Country)
    ensures c.Value() == Lower(c.Name())
  {
    var n, v := c.Name(), c.Value();
    assert |n| == |v|;
    forall i | 0 <= i < |n| ensures v[i] == LowerChar(n[i]) {
      match c
      case CANADA =>
      case MEXICO =>
      case CHINA =>
    }
  }

  /** The key `get_statistics` files a country's own statistics under: `f"{country.lower()}_statistics"`. */
  function StatisticsKey(name: string): (r: string)
    ensures |r| == |name| + 11 && r[|name|..] == "_statistics"
  {
    Lower(name) + "_statistics"
  }

  /** For a stored country name the key is the `StrEnum` value followed by `_statistics`. */
  lemma StatisticsKeyOfCountry(c: Country)
    ensures StatisticsKey(c.Name()) == c.Value() + "_statistics"
  {
    ValueIsLowerName(c);
  }

  /** One scrape target. */
  datatype ScraperConfig = ScraperConfig(
    url: string,
    country: Country,
    language: string,
    encoding: string,
    headers: Option<map<string, string>>)

  /** The dataclass constructor: `url`, `country` and `language` must be given; `encoding` defaults to "utf-8" and `headers` to absent. */
  function NewConfig(url: string, country: Country, language: string,
                     encoding: string := "utf-8", headers: Option<map<string, string>> := None): (r: ScraperConfig)
    ensures r.url == url && r.country == country && r.language == language
    ensures r.encoding == encoding && r.headers == headers
  {
    ScraperConfig(url, country, language, encoding, headers)
  }

  /** A configuration built from the three required fields alone carries the defaults. */
  lemma ConfigDefaults(url: string, country: Country, language: string)
    ensures NewConfig(url, country, language).encoding == "utf-8"
    ensures NewConfig(url, country, language).headers == None
  {
  }
}
