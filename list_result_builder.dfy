/**
 * The builder behind the list-like result formats: a layered configuration
 * (built-in defaults for all formats, then the chosen format's defaults,
 * then the caller's settings) and the assembly of value, field, row and
 * result texts from it. The texts a data value, a print request or the
 * template renderer produce are inputs.
 */
module ListResultBuilder {

  import opened Common
  import Php

  /** SMW_HEADERS_SHOW, SMW_HEADERS_PLAIN and SMW_HEADERS_HIDE are defined by the host; their values are not part of this model. */
  const SMW_HEADERS_SHOW: int
  const SMW_HEADERS_PLAIN: int
  const SMW_HEADERS_HIDE: int

  /** The setting names the builder reads; `Other` is any other name. */
  datatype Name =
      Sep // 'sep'
    | PropSep // 'propsep'
    | ValueSep // 'valuesep'
    | ShowHeaders // 'show-headers'
    | LinkFirst // 'link-first'
    | LinkOthers // 'link-others'
    | Template // 'template'
    | IntroTemplate // 'introtemplate'
    | OutroTemplate // 'outrotemplate'
    | ValueOpenTag // 'value-open-tag'
    | ValueCloseTag // 'value-close-tag'
    | FieldOpenTag // 'field-open-tag'
    | FieldCloseTag // 'field-close-tag'
    | FieldLabelOpenTag // 'field-label-open-tag'
    | FieldLabelCloseTag // 'field-label-close-tag'
    | FieldLabelSeparator // 'field-label-separator'
    | OtherFieldsOpen // 'other-fields-open'
    | OtherFieldsClose // 'other-fields-close'
    | RowOpenTag // 'row-open-tag'
    | RowCloseTag // 'row-close-tag'
    | ResultOpenTag // 'result-open-tag'
    | ResultCloseTag // 'result-close-tag'
    | Format // 'format'
    | NamedArgs // 'named args'
    | UserParam // 'userparam'
    | Other(s: string)

  type Config = map<Name, Php.Value>

  const Empty := Php.Str("")

  /** A value of a result cell: its short text with and without a linker. */
  datatype DataValue = DataValue(linkedText: string, plainText: string)

  /** One column of a row: the print request's label (`caption`) and header texts, and the cell's values. */
  datatype ResultField = ResultField(caption: string, headerLinked: string, headerPlain: string, values: seq<DataValue>)

  /** What the query tells the builder: its string, limit and offset, and the row count of a count query. */
  datatype QueryInfo = QueryInfo(queryString: string, limit: int, offset: int, rowCount: int)

  /** The input of the template renderer: the template name and the fields added, in order. */
  datatype TemplateCall = TemplateCall(template: Php.Value, fields: seq<(Php.Value, Php.Value)>)

  /** The argument of `set`: a setting name with its value, or a map of settings. */
  datatype SettingArg = One(name: Name, value: Php.Value) | Many(settings: Config)

  /** `get`: the setting, or the default when it is unset or null. */
  function Get(c: Config, name: Name, default: Php.Value): (r: Php.Value)
    ensures name in c && !c[name].Null? ==> r == c[name]
    ensures name !in c || c[name].Null? ==> r == default
  {
    if name in c && !c[name].Null? then c[name] else default
  }

  /** A setting as the `.` operator turns it into text. */
  function Text(c: Config, name: Name): string {
    Php.ToStr(Get(c, name, Empty))
  }

  /** `set`: the new settings replace the old ones with the same name; the rest stay. */
  function Replace(c: Config, s: SettingArg): (r: Config)
    ensures s.One? ==> r.Keys == c.Keys + {s.name} && r[s.name] == s.value
    ensures s.One? ==> forall k :: k in c && k != s.name ==> r[k] == c[k]
    ensures s.Many? ==> r.Keys == c.Keys + s.settings.Keys
    ensures s.Many? ==> forall k :: k in r ==> r[k] == if k in s.settings then s.settings[k] else c[k]
  {
    match s
    case One(name, value) => c + map[name := value]
    case Many(settings) => c + settings
  }

  /** `hasTemplates`: the strict comparison with '' makes any non-string value count as a template. */
  predicate HasTemplates(c: Config) {
    Get(c, Template, Empty) != Empty || Get(c, IntroTemplate, Empty) != Empty || Get(c, OutroTemplate, Empty) != Empty
  }

  lemma HasTemplatesIff(c: Config)
    ensures !HasTemplates(c) <==>
      (forall n :: n in {Template, IntroTemplate, OutroTemplate} ==> n !in c || c[n] == Empty || c[n].Null?)
  {
  }

  /** The formats with their own defaults; `AnyFormat` ('*') holds those of every format. */
  datatype FormatName = AnyFormat | ListFormat | OlFormat | UlFormat | TemplateFormat

  /** `array_key_exists` of a format setting in the defaults: only a string naming one of them. */
  function KnownFormat(v: Php.Value): (r: Option<FormatName>)
    ensures r.Some? <==> v.Str? && v.s in {"*", "list", "ol", "ul", "template"}
    ensures r == Some(ListFormat) <==> v == Php.Str("list")
  {
    if v == Php.Str("*") then Some(AnyFormat)
    else if v == Php.Str("list") then Some(ListFormat)
    else if v == Php.Str("ol") then Some(OlFormat)
    else if v == Php.Str("ul") then Some(UlFormat)
    else if v == Php.Str("template") then Some(TemplateFormat)
    else None
  }

  /** The built-in defaults of a format; '*' holds those of every format. */
  function Defaults(format: FormatName): Config
  {
    match format
    case AnyFormat => map[
      Sep := Empty,
      PropSep := Php.Str(", "),
      ValueSep := Php.Str(", "),
      ShowHeaders := Php.Int(SMW_HEADERS_SHOW),
      LinkFirst := Php.Bool(true),
      LinkOthers := Php.Bool(true),
      Template := Empty,
      IntroTemplate := Empty,
      OutroTemplate := Empty,
      ValueOpenTag := Php.Str("<div class=\"srf-value\">"),
      ValueCloseTag := Php.Str("</div>"),
      FieldOpenTag := Php.Str("<div class=\"srf-field\">"),
      FieldCloseTag := Php.Str("</div>"),
      FieldLabelOpenTag := Php.Str("<div class=\"srf-field-label\">"),
      FieldLabelCloseTag := Php.Str("</div>"),
      FieldLabelSeparator := Php.Str(": "),
      OtherFieldsOpen := Php.Str(" ("),
      OtherFieldsClose := Php.Str(")"),
      RowOpenTag := Php.Str("<div class=\"srf-row\">"),
      RowCloseTag := Php.Str("</div>"),
      ResultOpenTag := Php.Str("<div class=\"srf-format list-format\">"),
      ResultCloseTag := Php.Str("</div>")]
    case ListFormat => map[
      Sep := Php.Str(", "),
      RowOpenTag := Php.Str("<div class=\"srf-row\">"),
      RowCloseTag := Php.Str("</div>"),
      ResultOpenTag := Php.Str("<div class=\"srf-format list-format\">"),
      ResultCloseTag := Php.Str("</div>")]
    case OlFormat => map[
      RowOpenTag := Php.Str("<li class=\"srf-row\">"),
      RowCloseTag := Php.Str("</li>"),
      ResultOpenTag := Php.Str("<ol class=\"srf-format ol-format\">"),
      ResultCloseTag := Php.Str("</ol>")]
    case UlFormat => map[
      RowOpenTag := Php.Str("<li class=\"srf-row\">"),
      RowCloseTag := Php.Str("</li>"),
      ResultOpenTag := Php.Str("<ul class=\"srf-format ul-format\">"),
      ResultCloseTag := Php.Str("</ul>")]
    case TemplateFormat => map[
      RowOpenTag := Empty,
      RowCloseTag := Empty,
      ResultOpenTag := Php.Str("<div class=\"srf-format list-format\">"),
      ResultCloseTag := Php.Str("</div>")]
  }

  /** The format whose defaults apply: the configured one if it has defaults, else 'list', which a template turns into 'template'. */
  function FormatOf(c: Config): (f: FormatName)
    ensures KnownFormat(Get(c, Format, Empty)).Some? && f != TemplateFormat && f != ListFormat ==>
              f == KnownFormat(Get(c, Format, Empty)).value
    ensures KnownFormat(Get(c, Format, Empty)).Some? && KnownFormat(Get(c, Format, Empty)).value != ListFormat ==>
              f == KnownFormat(Get(c, Format, Empty)).value
    ensures KnownFormat(Get(c, Format, Empty)) in {None, Some(ListFormat)} ==>
              f == if Get(c, Template, Empty) != Empty then TemplateFormat else ListFormat
  {
    var known := KnownFormat(Get(c, Format, Empty));
    var format := if known.Some? then known.value else ListFormat;
    if Get(c, Template, Empty) != Empty && format == ListFormat then TemplateFormat else format
  }

  /** The caller's settings once a template is set: value tags cleared. */
  function WithTemplate(c: Config): (r: Config)
    ensures Get(c, Template, Empty) != Empty ==>
      r == Replace(c, Many(map[ValueOpenTag := Empty, ValueCloseTag := Empty]))
    ensures Get(c, Template, Empty) == Empty ==> r == c
  {
    if Get(c, Template, Empty) != Empty then c + map[ValueOpenTag := Empty, ValueCloseTag := Empty] else c
  }

  /** A table of defaults per format, such as `Defaults`. */
  type Layers = FormatName -> Config

  /** What the preparation relies on: no format defaults a format, and only '*' defaults the template, to ''. */
  predicate LayersOk(defaults: Layers) {
    && (forall f :: Format !in defaults(f))
    && (forall f :: f != AnyFormat ==> Template !in defaults(f))
    && Template in defaults(AnyFormat) && defaults(AnyFormat)[Template] == Empty
  }

  /** Only '*' says whether columns are linked, and it links them all. */
  predicate LinksByDefault(defaults: Layers) {
    && (forall f :: f != AnyFormat ==> LinkFirst !in defaults(f) && LinkOthers !in defaults(f))
    && LinkFirst in defaults(AnyFormat) && defaults(AnyFormat)[LinkFirst] == Php.Bool(true)
    && LinkOthers in defaults(AnyFormat) && defaults(AnyFormat)[LinkOthers] == Php.Bool(true)
  }

  /** A format's own defaults only set the separator and the row and result tags. */
  lemma FormatDefaultsKeys(f: FormatName)
    requires f != AnyFormat
    ensures Defaults(f).Keys <= {Sep, RowOpenTag, RowCloseTag, ResultOpenTag, ResultCloseTag}
  {
  }

  /** The '*' defaults: no format, no template and full linking. */
  lemma StarDefaults()
    ensures Format !in Defaults(AnyFormat) && Defaults(AnyFormat)[Template] == Empty
    ensures Defaults(AnyFormat)[LinkFirst] == Php.Bool(true) && Defaults(AnyFormat)[LinkOthers] == Php.Bool(true)
  {
  }

  /** The built-in table has the shape the preparation relies on. */
  lemma DefaultsShape()
    ensures LayersOk(Defaults)
  {
    StarDefaults();
    forall f | f != AnyFormat
      ensures Format !in Defaults(f) && Template !in Defaults(f)
    {
      FormatDefaultsKeys(f);
    }
  }

  /** In the built-in table only '*' decides linking, and it links every column. */
  lemma DefaultsLink()
    ensures LinksByDefault(Defaults)
  {
    StarDefaults();
    forall f | f != AnyFormat
      ensures LinkFirst !in Defaults(f) && LinkOthers !in Defaults(f)
    {
      FormatDefaultsKeys(f);
    }
  }

  /** The layered settings: the '*' defaults, overridden by the format's, overridden by the caller's settings. */
  function PreparedWith(c: Config, defaults: Layers): Config {
    defaults(AnyFormat) + defaults(FormatOf(c)) + WithTemplate(c)
  }

  /** `prepareBuilt`, with the built-in defaults. */
  function Prepared(c: Config): Config {
    PreparedWith(c, Defaults)
  }

  /** Each setting comes from the innermost layer that has it. */
  lemma PrepareBuiltLayers(c: Config, defaults: Layers, k: Name)
    ensures var r := PreparedWith(c, defaults);
      var f := FormatOf(c);
      var user := WithTemplate(c);
      && r.Keys == defaults(AnyFormat).Keys + defaults(f).Keys + c.Keys + user.Keys
      && (k in user ==> r[k] == user[k])
      && (k !in user && k in defaults(f) ==> r[k] == defaults(f)[k])
      && (k !in user && k !in defaults(f) && k in defaults(AnyFormat) ==> r[k] == defaults(AnyFormat)[k])
  {
  }

  /** A template empties the value tags whatever the caller set, and the 'list' format becomes 'template'. */
  lemma TemplateClearsValueTags(c: Config, defaults: Layers)
    requires Get(c, Template, Empty) != Empty
    ensures PreparedWith(c, defaults)[ValueOpenTag] == Empty && PreparedWith(c, defaults)[ValueCloseTag] == Empty
    ensures KnownFormat(Get(c, Format, Empty)) in {None, Some(ListFormat)} ==> FormatOf(c) == TemplateFormat
  {
  }

  /** A caller's setting is never lost, unless a template clears a value tag. */
  lemma CallerSettingsWin(c: Config, defaults: Layers, k: Name)
    requires k in c && k != ValueOpenTag && k != ValueCloseTag
    ensures PreparedWith(c, defaults)[k] == c[k]
  {
    assert WithTemplate(c)[k] == c[k];
  }

  /** The template setting survives preparation unchanged, as `get` sees it. */
  lemma TemplateKept(c: Config, defaults: Layers)
    requires LayersOk(defaults)
    ensures Get(PreparedWith(c, defaults), Template, Empty) == Get(c, Template, Empty)
    ensures Get(PreparedWith(c, defaults), Format, Empty) == Get(c, Format, Empty)
  {
    var p := PreparedWith(c, defaults);
    var user := WithTemplate(c);
    assert Template in user <==> Template in c;
    assert Format in p <==> Format in c;
    if Template in c {
      assert user[Template] == c[Template];
      assert p[Template] == c[Template];
    } else {
      assert Template !in defaults(FormatOf(c)) || FormatOf(c) == AnyFormat;
      assert p[Template] == Empty;
    }
  }

  /** Preparing twice is preparing once, so repeated result texts use the same settings. */
  lemma {:induction false} PrepareBuiltIdempotent(c: Config, defaults: Layers)
    requires LayersOk(defaults)
    ensures PreparedWith(PreparedWith(c, defaults), defaults) == PreparedWith(c, defaults)
  {
    var p := PreparedWith(c, defaults);
    TemplateKept(c, defaults);
    assert FormatOf(p) == FormatOf(c);
    assert WithTemplate(p) == p by {
      if Get(c, Template, Empty) != Empty {
        assert p[ValueOpenTag] == Empty && p[ValueCloseTag] == Empty;
        assert p + map[ValueOpenTag := Empty, ValueCloseTag := Empty] == p;
      }
    }
    var d := defaults(AnyFormat) + defaults(FormatOf(c));
    assert d.Keys <= p.Keys;
    assert d + p == p;
  }

  /** `getResultText` may prepare the settings any number of times: the built-in defaults make preparation idempotent. */
  lemma PreparedIdempotent(c: Config)
    ensures Prepared(Prepared(c)) == Prepared(c)
  {
    DefaultsShape();
    PrepareBuiltIdempotent(c, Defaults);
  }

  /** `getLinkerForColumn`: column 0 is linked iff link-first holds, a later column iff link-others holds. */
  predicate Linked(c: Config, column: int) {
    (column == 0 && Php.ToBool(Get(c, LinkFirst, Empty)))
    || (column > 0 && Php.ToBool(Get(c, LinkOthers, Empty)))
  }

  lemma LinkedIff(c: Config, column: int)
    ensures column == 0 ==> (Linked(c, column) <==> Php.ToBool(Get(c, LinkFirst, Empty)))
    ensures column > 0 ==> (Linked(c, column) <==> Php.ToBool(Get(c, LinkOthers, Empty)))
    ensures column < 0 ==> !Linked(c, column)
  {
  }

  /** Unless the caller sets link-first or link-others, every column is linked. */
  lemma {:induction false} DefaultsLinkEverything(c: Config, defaults: Layers, column: int)
    requires LinksByDefault(defaults)
    requires column >= 0
    requires LinkFirst !in c && LinkOthers !in c
    ensures Linked(PreparedWith(c, defaults), column)
  {
    var f := FormatOf(c);
    var p := PreparedWith(c, defaults);
    assert LinkFirst !in WithTemplate(c) && LinkOthers !in WithTemplate(c);
    assert p[LinkFirst] == Php.Bool(true) && p[LinkOthers] == Php.Bool(true);
  }

  /** With the built-in defaults, every column is linked unless the caller says otherwise. */
  lemma BuiltInLinks(c: Config, column: int)
    requires column >= 0
    requires LinkFirst !in c && LinkOthers !in c
    ensures Linked(Prepared(c), column)
  {
    DefaultsLink();
    DefaultsLinkEverything(c, Defaults, column);
  }

  /** `getValueText`: the value's short text, linked per column, between the value tags. */
  function ValueText(c: Config, v: DataValue, column: int): string {
    Text(c, ValueOpenTag) + (if Linked(c, column) then v.linkedText else v.plainText) + Text(c, ValueCloseTag)
  }

  /** `getValueTexts` */
  function ValueTexts(c: Config, values: seq<DataValue>, column: int): (r: seq<string>)
    ensures |r| == |values|
  {
    seq(|values|, i requires 0 <= i < |values| => ValueText(c, values[i], column))
  }

  /** `getFieldText`: the value texts joined by valuesep. */
  function FieldText(c: Config, f: ResultField, column: int): string {
    Php.Join(Text(c, ValueSep), ValueTexts(c, f.values, column))
  }

  /** `getFieldLabel`: nothing when headers are hidden or the label is empty. */
  function FieldLabel(c: Config, f: ResultField): (r: string)
    ensures Get(c, ShowHeaders, Empty) == Php.Int(SMW_HEADERS_HIDE) || f.caption == "" ==> r == ""
  {
    var mode := Get(c, ShowHeaders, Empty);
    if mode == Php.Int(SMW_HEADERS_HIDE) || f.caption == "" then ""
    else
      Text(c, FieldLabelOpenTag)
      + (if mode == Php.Int(SMW_HEADERS_PLAIN) then f.headerPlain else f.headerLinked)
      + Text(c, FieldLabelSeparator)
      + Text(c, FieldLabelCloseTag)
  }

  /** `getFieldTexts`: caption and text of each column, numbered from 0. */
  function FieldTexts(c: Config, fields: seq<ResultField>): (r: seq<string>)
    ensures |r| == |fields|
  {
    seq(|fields|, i requires 0 <= i < |fields| => FieldLabel(c, fields[i]) + FieldText(c, fields[i], i))
  }

  /** `getRowText`: the first field, then the others in parentheses, between the row tags; nothing for no fields. */
  function RowText(c: Config, fieldTexts: seq<string>): string {
    if fieldTexts == [] then ""
    else
      var others := if |fieldTexts| > 1
        then Text(c, OtherFieldsOpen) + Php.Join(Text(c, PropSep), fieldTexts[1..]) + Text(c, OtherFieldsClose)
        else "";
      Text(c, RowOpenTag) + fieldTexts[0] + others + Text(c, RowCloseTag)
  }

  lemma RowTextShape(c: Config, fieldTexts: seq<string>)
    ensures fieldTexts == [] ==> RowText(c, fieldTexts) == ""
    ensures |fieldTexts| == 1 ==> RowText(c, fieldTexts) == Text(c, RowOpenTag) + fieldTexts[0] + Text(c, RowCloseTag)
  {
  }

  /** Two fields: the second one in the other-fields brackets. */
  lemma RowTextTwoFields(c: Config, fieldTexts: seq<string>)
    ensures |fieldTexts| == 2 ==>
      (RowText(c, fieldTexts) == Text(c, RowOpenTag) + fieldTexts[0]
         + (Text(c, OtherFieldsOpen) + fieldTexts[1] + Text(c, OtherFieldsClose)) + Text(c, RowCloseTag))
  {
    if |fieldTexts| == 2 {
      assert fieldTexts[1..] == [fieldTexts[1]];
      assert Php.Join(Text(c, PropSep), fieldTexts[1..]) == fieldTexts[1];
    }
  }

  /** `getFieldLabelForTemplate`: the column number from 1 when named args are off or the caption is empty, else the caption. */
  function FieldLabelForTemplate(c: Config, caption: string, column: int): (r: Php.Value)
    ensures r == Php.Str(caption) <==> Get(c, NamedArgs, Empty) != Php.Bool(false) && caption != ""
    ensures r != Php.Str(caption) ==> r == Php.Int(column + 1)
  {
    if Get(c, NamedArgs, Empty) == Php.Bool(false) then Php.Int(column + 1)
    else if caption == "" then Php.Int(column + 1)
    else Php.Str(caption)
  }

  /** `addCommonTemplateFields` */
  function CommonFields(c: Config, info: QueryInfo): (r: seq<(Php.Value, Php.Value)>)
    ensures |r| == 4 || |r| == 5
    ensures r[|r| - 1] == (Php.Str("#rowcount"), Php.Int(info.rowCount))
    ensures |r| == 5 <==> Get(c, UserParam, Empty) != Empty
  {
    var user := Get(c, UserParam, Empty);
    (if user != Empty then [(Php.Str("#userparam"), user)] else [])
    + [(Php.Str("#querycondition"), Php.Str(info.queryString)),
       (Php.Str("#querylimit"), Php.Int(info.limit)),
       (Php.Str("#resultoffset"), Php.Int(info.offset)),
       (Php.Str("#rowcount"), Php.Int(info.rowCount))]
  }

  /** The fields `getRowTextFromTemplate` adds for one row: caption and text per column, then the row number. */
  function TemplateFields(c: Config, fields: seq<ResultField>, rownum: int): (r: seq<(Php.Value, Php.Value)>)
    ensures |r| == |fields| + 1
    ensures r[|fields|] == (Php.Str("#rownumber"), Php.Int(rownum))
    ensures forall i :: 0 <= i < |fields| ==> r[i].1 == Php.Str(FieldText(c, fields[i], i))
  {
    seq(|fields|, i requires 0 <= i < |fields| =>
      (FieldLabelForTemplate(c, fields[i].caption, i), Php.Str(FieldText(c, fields[i], i))))
    + [(Php.Str("#rownumber"), Php.Int(rownum))]
  }

  /** `getRowTextFromTemplate`: the rendered template call between the row tags. */
  function TemplateRowText(c: Config, fields: seq<ResultField>, rownum: int, info: QueryInfo,
                           render: TemplateCall -> string): string {
    Text(c, RowOpenTag)
    + render(TemplateCall(Get(c, Template, Empty), CommonFields(c, info) + TemplateFields(c, fields, rownum)))
    + Text(c, RowCloseTag)
  }

  /** `getTemplateCall`: the rendered intro or outro template, or nothing when it is not set. */
  function TemplateCallText(c: Config, param: Name, info: QueryInfo, render: TemplateCall -> string): (r: string)
    ensures Get(c, param, Empty) == Empty ==> r == ""
  {
    var name := Get(c, param, Empty);
    if name != Empty then render(TemplateCall(name, CommonFields(c, info))) else ""
  }

  /** The text of the k-th row (counting from 0), which is row number offset + k + 1. */
  function RowTextAt(c: Config, row: seq<ResultField>, k: int, info: QueryInfo, render: TemplateCall -> string): string {
    if Get(c, Template, Empty) == Empty then RowText(c, FieldTexts(c, row))
    else TemplateRowText(c, row, info.offset + k + 1, info, render)
  }

  /** `getRowTexts` */
  function RowTexts(c: Config, rows: seq<seq<ResultField>>, info: QueryInfo, render: TemplateCall -> string): (r: seq<string>)
    ensures |r| == |rows|
  {
    seq(|rows|, k requires 0 <= k < |rows| => RowTextAt(c, rows[k], k, info, render))
  }

  /** With a template, the rows are numbered from offset + 1 in order and each gets its own number as the last field. */
  lemma RowNumbers(c: Config, rows: seq<seq<ResultField>>, info: QueryInfo, render: TemplateCall -> string, k: int)
    requires Get(c, Template, Empty) != Empty
    requires 0 <= k < |rows|
    ensures var call := TemplateCall(Get(c, Template, Empty),
                                     CommonFields(c, info) + TemplateFields(c, rows[k], info.offset + k + 1));
      && RowTexts(c, rows, info, render)[k] == Text(c, RowOpenTag) + render(call) + Text(c, RowCloseTag)
      && call.fields[|call.fields| - 1] == (Php.Str("#rownumber"), Php.Int(info.offset + k + 1))
  {
  }

  /** `getResultText` on settings already prepared. */
  function ResultText(c: Config, rows: seq<seq<ResultField>>, info: QueryInfo, render: TemplateCall -> string): string {
    TemplateCallText(c, IntroTemplate, info, render)
    + Text(c, ResultOpenTag)
    + Php.Join(Text(c, Sep), RowTexts(c, rows, info, render))
    + Text(c, ResultCloseTag)
    + TemplateCallText(c, OutroTemplate, info, render)
  }

  /** The builder over one query result; `configuration` is the state `set` and `prepareBuilt` overwrite. */
  class ListResultBuilder {
    var configuration: Config
    const rows: seq<seq<ResultField>>
    const info: QueryInfo
    /** The wikitext template renderer; what it renders is not modelled. */
    const render: TemplateCall -> string

    constructor (rows: seq<seq<ResultField>>, info: QueryInfo, render: TemplateCall -> string)
      ensures configuration == map[] && this.rows == rows && this.info == info && this.render == render
    {
      configuration := map[];
      this.rows := rows;
      this.info := info;
      this.render := render;
    }

    /** `set` */
    method Set(s: SettingArg)
      modifies this`configuration
      ensures configuration == Replace(old(configuration), s)
    {
      match s
      case One(name, value) => configuration := configuration + map[name := value];
      case Many(settings) => configuration := configuration + settings;
    }

    /** `prepareBuilt` */
    method PrepareBuilt()
      modifies this`configuration
      ensures configuration == Prepared(old(configuration))
    {
      var known := KnownFormat(Get(configuration, Format, Empty));
      var format := ListFormat;
      if known.Some? {
        format := known.value;
      }
      if Get(configuration, Template, Empty) != Empty {
        Set(Many(map[ValueOpenTag := Empty, ValueCloseTag := Empty]));
        if format == ListFormat {
          format := TemplateFormat;
        }
      }
      configuration := Defaults(AnyFormat) + Defaults(format) + configuration;
    }

    /** `getValueTexts` */
    method GetValueTexts(field: ResultField, column: int) returns (texts: seq<string>)
      ensures texts == ValueTexts(configuration, field.values, column)
    {
      texts := [];
      var i := 0;
      while i < |field.values|
        invariant 0 <= i <= |field.values|
        invariant |texts| == i
        invariant forall j :: 0 <= j < i ==> texts[j] == ValueText(configuration, field.values[j], column)
      {
        texts := texts + [ValueText(configuration, field.values[i], column)];
        i := i + 1;
      }
    }

    /** `getFieldTexts` */
    method GetFieldTexts(fields: seq<ResultField>) returns (texts: seq<string>)
      ensures texts == FieldTexts(configuration, fields)
    {
      texts := [];
      var column := 0;
      while column < |fields|
        invariant 0 <= column <= |fields|
        invariant |texts| == column
        invariant forall j :: 0 <= j < column ==> texts[j] == FieldLabel(configuration, fields[j]) + FieldText(configuration, fields[j], j)
      {
        var values := GetValueTexts(fields[column], column);
        texts := texts + [FieldLabel(configuration, fields[column]) + Php.Join(Text(configuration, ValueSep), values)];
        column := column + 1;
      }
    }

    /** The row renderer `getRowTexts` calls: `getRowText` without a template, `getRowTextFromTemplate` with one. */
    method RenderRow(row: seq<ResultField>, k: int, num: int) returns (text: string)
      requires num == info.offset + k + 1
      ensures text == RowTextAt(configuration, row, k, info, render)
    {
      if Get(configuration, Template, Empty) == Empty {
        var fieldTexts := GetFieldTexts(row);
        text := RowText(configuration, fieldTexts);
      } else {
        text := TemplateRowText(configuration, row, num, info, render);
      }
    }

    /** `getRowTexts`: the rows in order, numbered from the query offset plus one. */
    method GetRowTexts() returns (texts: seq<string>)
      ensures texts == RowTexts(configuration, rows, info, render)
    {
      texts := [];
      var num := info.offset;
      var k := 0;
      while k < |rows|
        invariant 0 <= k <= |rows|
        invariant num == info.offset + k
        invariant |texts| == k
        invariant forall j :: 0 <= j < k ==> texts[j] == RowTextAt(configuration, rows[j], j, info, render)
      {
        num := num + 1;
        var text := RenderRow(rows[k], k, num);
        texts := texts + [text];
        k := k + 1;
      }
    }

    /** `getResultText`: prepares the settings, then assembles intro, rows and outro. */
    method GetResultText() returns (text: string)
      modifies this`configuration
      ensures configuration == Prepared(old(configuration))
      ensures text == ResultText(configuration, rows, info, render)
    {
      PrepareBuilt();
      var rowTexts := GetRowTexts();
      text := TemplateCallText(configuration, IntroTemplate, info, render)
        + Text(configuration, ResultOpenTag)
        + Php.Join(Text(configuration, Sep), rowTexts)
        + Text(configuration, ResultCloseTag)
        + TemplateCallText(configuration, OutroTemplate, info, render);
    }
  }
}
