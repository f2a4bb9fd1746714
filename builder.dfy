/**
 * Builder pattern demo: a weather station (the director) fills a weather
 * record (the product) through a builder's fluent setters and has the
 * concrete XML builder render it as text.
 *
 * Dates enter the model already formatted: reading the clock and the
 * `yyyy-MM-dd'T'HH:mm:ss` formatting are not part of it, so a date is the
 * string the formatter would produce for it.
 */
module Builder {
  import opened Wrappers
  import opened JavaInt

  /** A date, as the builder's date format renders it. */
  type FormattedDate = string

  datatype WeatherType = Rain | Snow | Sunny | Cloudy | Unknown

  /** The enum constant's `toString`: its declared name. */
  function Name(t: WeatherType): string
  {
    match t
    case Rain => "RAIN"
    case Snow => "SNOW"
    case Sunny => "SUNNY"
    case Cloudy => "CLOUDY"
    case Unknown => "UNKNOWN"
  }

  /** Different weather types print differently. */
  lemma NameInjective(a: WeatherType, b: WeatherType)
    ensures Name(a) == Name(b) ==> a == b
  {
  }

  /** `<Weather date='D'>` and a line break. */
  function OpenLine(date: FormattedDate): string
  {
    "<Weather date='" + date + "'>\n"
  }

  /** `    <temp>T</temp>` and a line break, with the temperature in decimal. */
  function TempLine(temp: Int32): string
  {
    TEMP_OPEN + IntToDecimal(temp) + TEMP_CLOSE
  }

  /** `    <current>W</current>` and a line break, with the type's name. */
  function CurrentLine(t: WeatherType): string
  {
    CURRENT_OPEN + Name(t) + CURRENT_CLOSE
  }

  const TEMP_OPEN: string := "    <temp>"
  const TEMP_CLOSE: string := "</temp>\n"
  const CURRENT_OPEN: string := "    <current>"
  const CURRENT_CLOSE: string := "</current>\n"

  /** The last line is `<Weather>`, without a slash, exactly as the builder writes it. */
  const CLOSE_LINE: string := "<Weather>"

  /** The text the XML builder produces for a record. */
  function WeatherXml(date: FormattedDate, temp: Int32, t: WeatherType): string
  {
    OpenLine(date) + TempLine(temp) + CurrentLine(t) + CLOSE_LINE
  }

  /** Where each of four concatenated parts sits. */
  lemma Quarters<T>(a: seq<T>, b: seq<T>, c: seq<T>, d: seq<T>)
    ensures var s := a + b + c + d;
      && |s| == |a| + |b| + |c| + |d|
      && s[..|a|] == a
      && s[|a|..|a| + |b|] == b
      && s[|a| + |b|..|a| + |b| + |c|] == c
      && s[|s| - |d|..] == d
  {
    var s := a + b + c + d;
    assert s == a + (b + (c + d));
    assert s == (a + b) + (c + d);
    assert s == (a + b + c) + d;
  }

  /** The middle of three parts, found inside a larger sequence. */
  lemma MiddleAt<T>(s: seq<T>, i: nat, a: seq<T>, b: seq<T>, c: seq<T>)
    requires i + |a + b + c| <= |s| && s[i..i + |a + b + c|] == a + b + c
    ensures s[i + |a|..i + |a| + |b|] == b
  {
    forall k | 0 <= k < |b|
      ensures s[i + |a|..i + |a| + |b|][k] == b[k]
    {
      assert s[i + |a| + k] == s[i..i + |a + b + c|][|a| + k];
    }
  }

  /** The temperature's digits follow `<temp>` and read back as the temperature. */
  lemma TempReadBack(date: FormattedDate, temp: Int32, t: WeatherType)
    ensures var xml := WeatherXml(date, temp, t);
      var at := |OpenLine(date)| + |TEMP_OPEN|;
      at + |IntToDecimal(temp)| <= |xml| && ParseInt(xml[at..at + |IntToDecimal(temp)|]) == Some(temp as int)
  {
    var open, tl, cl := OpenLine(date), TempLine(temp), CurrentLine(t);
    Quarters(open, tl, cl, CLOSE_LINE);
    MiddleAt(open + tl + cl + CLOSE_LINE, |open|, TEMP_OPEN, IntToDecimal(temp), TEMP_CLOSE);
    IntDecimalRoundTrip(temp);
  }

  /** The type's name follows `<current>` on the third line. */
  lemma TypeNameAt(date: FormattedDate, temp: Int32, t: WeatherType)
    ensures var xml := WeatherXml(date, temp, t);
      var at := |OpenLine(date)| + |TempLine(temp)| + |CURRENT_OPEN|;
      at + |Name(t)| <= |xml| && xml[at..at + |Name(t)|] == Name(t)
  {
    var open, tl, cl := OpenLine(date), TempLine(temp), CurrentLine(t);
    Quarters(open, tl, cl, CLOSE_LINE);
    MiddleAt(open + tl + cl + CLOSE_LINE, |open| + |tl|, CURRENT_OPEN, Name(t), CURRENT_CLOSE);
  }

  /**
   * The layout of the output: it opens with the date line, the temperature's
   * digits start right after `<temp>` on the second line and read back as the
   * temperature, the type's name follows `<current>` on the third line (so,
   * by `NameInjective`, the output determines the type), and the text ends
   * with the unslashed `<Weather>` line.
   */
  lemma WeatherXmlLayout(date: FormattedDate, temp: Int32, t: WeatherType)
    ensures var xml := WeatherXml(date, temp, t);
      var digits := IntToDecimal(temp);
      var tempAt := |OpenLine(date)| + |TEMP_OPEN|;
      var nameAt := |OpenLine(date)| + |TempLine(temp)| + |CURRENT_OPEN|;
      && |xml| == |OpenLine(date)| + |TempLine(temp)| + |CurrentLine(t)| + |CLOSE_LINE|
      && xml[..|OpenLine(date)|] == OpenLine(date)
      && ParseInt(xml[tempAt..tempAt + |digits|]) == Some(temp as int)
      && xml[nameAt..nameAt + |Name(t)|] == Name(t)
      && xml[|xml| - |CLOSE_LINE|..] == CLOSE_LINE
  {
    Quarters(OpenLine(date), TempLine(temp), CurrentLine(t), CLOSE_LINE);
    TempReadBack(date, temp, t);
    TypeNameAt(date, temp, t);
  }

  /** The product. */
  class Weather {
    var date: FormattedDate
    var temp: Int32
    var weatherType: WeatherType

    /** A new record carries the creation time, 72 degrees and an unknown type. */
    constructor (now: FormattedDate)
      ensures date == now && temp == 72 && weatherType == Unknown
    {
      date, temp, weatherType := now, 72, Unknown;
    }

    function GetDate(): FormattedDate reads this { date }
    function GetTemp(): Int32 reads this { temp }
    function GetWeatherType(): WeatherType reads this { weatherType }

    method SetDate(date: FormattedDate)
      modifies this
      ensures this.date == date && temp == old(temp) && weatherType == old(weatherType)
    {
      this.date := date;
    }

    method SetTemp(temp: Int32)
      modifies this
      ensures this.temp == temp && date == old(date) && weatherType == old(weatherType)
    {
      this.temp := temp;
    }

    method SetWeatherType(weatherType: WeatherType)
      modifies this
      ensures this.weatherType == weatherType && date == old(date) && temp == old(temp)
    {
      this.weatherType := weatherType;
    }
  }

  /** The concrete builder that renders the record as XML; the builder base class is folded into it. */
  class XmlWeatherDataBuilder {
    const weather: Weather

    constructor (now: FormattedDate)
      ensures fresh(weather)
      ensures weather.date == now && weather.temp == 72 && weather.weatherType == Unknown
    {
      weather := new Weather(now);
    }

    /** Sets the temperature, keeps the rest, and returns this builder for chaining. */
    method AddTemp(temp: Int32) returns (self: XmlWeatherDataBuilder)
      modifies weather
      ensures self == this
      ensures weather.temp == temp && weather.date == old(weather.date)
      ensures weather.weatherType == old(weather.weatherType)
    {
      weather.SetTemp(temp);
      self := this;
    }

    /** Sets the date, keeps the rest, and returns this builder for chaining. */
    method AddDate(date: FormattedDate) returns (self: XmlWeatherDataBuilder)
      modifies weather
      ensures self == this
      ensures weather.date == date && weather.temp == old(weather.temp)
      ensures weather.weatherType == old(weather.weatherType)
    {
      weather.SetDate(date);
      self := this;
    }

    /** Sets the weather type, keeps the rest, and returns this builder for chaining. */
    method AddWeatherType(weatherType: WeatherType) returns (self: XmlWeatherDataBuilder)
      modifies weather
      ensures self == this
      ensures weather.weatherType == weatherType && weather.date == old(weather.date)
      ensures weather.temp == old(weather.temp)
    {
      weather.SetWeatherType(weatherType);
      self := this;
    }

    /** Renders the current record, line by line, without changing it. */
    method Build() returns (xml: string)
      ensures xml == WeatherXml(weather.date, weather.temp, weather.weatherType)
    {
      var sb := OpenLine(weather.GetDate());
      sb := sb + TempLine(weather.GetTemp());
      sb := sb + CurrentLine(weather.GetWeatherType());
      sb := sb + CLOSE_LINE;
      xml := sb;
    }
  }

  /** The director. */
  class WeatherStation {
    const builder: XmlWeatherDataBuilder

    constructor (builder: XmlWeatherDataBuilder)
      ensures this.builder == builder
    {
      this.builder := builder;
    }

    /**
     * Stamps the record with `now`, 85 degrees and sunny, and renders it:
     * the output does not depend on what the builder held before.
     */
    method GetData(now: FormattedDate) returns (xml: string)
      modifies builder.weather
      ensures xml == WeatherXml(now, 85, Sunny)
      ensures builder.weather.date == now && builder.weather.temp == 85
      ensures builder.weather.weatherType == Sunny
    {
      var _ := builder.AddDate(now);
      var _ := builder.AddTemp(85);
      var _ := builder.AddWeatherType(Sunny);
      xml := builder.Build();
    }
  }
}
