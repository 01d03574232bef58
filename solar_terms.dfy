/**
 * The solar-term annotation of App.tsx: the `JIE_QI_MAP` table that turns the
 * term names `lunar-javascript` reports (traditional or simplified hanja,
 * SNAKE_CASE or CamelCase romanisation) into the 24 Korean term names, the
 * lookup that falls back from the exact name to its upper-case form and then
 * to the raw name, and the per-year map from dates to term labels.
 */
module SolarTerms {
  import opened Gregorian
  import opened Lunar
  import opened Wrappers

  // The four groups of `JIE_QI_MAP`, in the order the table lists them.

  const TRADITIONAL: map<string, string> := map[
    "立春" := "입춘", "雨水" := "우수", "驚蟄" := "경칩", "春分" := "춘분", "淸明" := "청명", "穀雨" := "곡우",
    "立夏" := "입하", "小滿" := "소만", "芒種" := "망종", "夏至" := "하지", "小暑" := "소서", "大暑" := "대서",
    "立秋" := "입추", "處暑" := "처서", "白露" := "백로", "秋分" := "추분", "寒露" := "한로", "霜降" := "상강",
    "立冬" := "입동", "小雪" := "소설", "大雪" := "대설", "冬至" := "동지", "小寒" := "소한", "大寒" := "대한"
  ]

  const SIMPLIFIED: map<string, string> := map[
    "惊蛰" := "경칩", "清明" := "청명", "谷雨" := "곡우", "小满" := "소만", "芒种" := "망종", "处暑" := "처서"
  ]

  const SNAKE_CASE: map<string, string> := map[
    "LI_CHUN" := "입춘", "YU_SHUI" := "우수", "JING_ZHE" := "경칩", "CHUN_FEN" := "춘분", "QING_MING" := "청명", "GU_YU" := "곡우",
    "LI_XIA" := "입하", "XIAO_MAN" := "소만", "MANG_ZHONG" := "망종", "XIA_ZHI" := "하지", "XIAO_SHU" := "소서", "DA_SHU" := "대서",
    "LI_QIU" := "입추", "CHU_SHU" := "처서", "BAI_LU" := "백로", "QIU_FEN" := "추분", "HAN_LU" := "한로", "SHUANG_JIANG" := "상강",
    "LI_DONG" := "입동", "XIAO_XUE" := "소설", "DA_XUE" := "대설", "DONG_ZHI" := "동지", "XIAO_HAN" := "소한", "DA_HAN" := "대한"
  ]

  const CAMEL_CASE: map<string, string> := map[
    "Lichun" := "입춘", "Yushui" := "우수", "Jingzhe" := "경칩", "Chunfen" := "춘분", "Qingming" := "청명", "Guyu" := "곡우",
    "Lixia" := "입하", "Xiaoman" := "소만", "Mangzhong" := "망종", "Xiazhi" := "하지", "Xiaoshu" := "소서", "Dashu" := "대서",
    "Liqiu" := "입추", "Chushu" := "처서", "Bailu" := "백로", "Qiufen" := "추분", "Hanlu" := "한로", "Shuangjiang" := "상강",
    "Lidong" := "입동", "Xiaoxue" := "소설", "Daxue" := "대설", "Dongzhi" := "동지", "Xiaohan" := "소한", "Dahan" := "대한"
  ]

  /** `JIE_QI_MAP`: no key is in two groups (`HanjaApart`, `UpperApart`, `LowerApart`, `SimplifiedAreNew`), so their union is the table. */
  const JIE_QI_MAP: map<string, string> := TRADITIONAL + SIMPLIFIED + SNAKE_CASE + CAMEL_CASE

  /** The 24 Korean term names, from 입춘 to 대한. */
  const KOREAN_TERMS: seq<string> := [
    "입춘", "우수", "경칩", "춘분", "청명", "곡우",
    "입하", "소만", "망종", "하지", "소서", "대서",
    "입추", "처서", "백로", "추분", "한로", "상강",
    "입동", "소설", "대설", "동지", "소한", "대한"]

  // ---------------------------------------------------------------------------
  // The shapes of the keys, which tell the groups apart

  function LastChar(k: string): char
    requires k != []
  {
    k[|k| - 1]
  }

  predicate IsHanja(c: char) {
    0x4E00 <= c as int <= 0x9FFF
  }

  predicate IsHangul(c: char) {
    0xAC00 <= c as int <= 0xD7A3
  }

  predicate IsUpper(c: char) {
    'A' <= c <= 'Z'
  }

  predicate IsLower(c: char) {
    'a' <= c <= 'z'
  }

  lemma TraditionalShape()
    ensures forall k :: k in TRADITIONAL ==> k != [] && IsHanja(LastChar(k))
  {
  }

  lemma SimplifiedShape()
    ensures forall k :: k in SIMPLIFIED ==> k != [] && IsHanja(LastChar(k))
  {
  }

  lemma SnakeCaseShape()
    ensures forall k :: k in SNAKE_CASE ==> k != [] && IsUpper(LastChar(k))
  {
  }

  lemma CamelCaseShape()
    ensures forall k :: k in CAMEL_CASE ==> k != [] && IsLower(LastChar(k))
  {
  }

  /** Each Korean term name is two Hangul syllables. */
  lemma KoreanShape()
    ensures forall i :: 0 <= i < |KOREAN_TERMS| ==>
      |KOREAN_TERMS[i]| == 2 && IsHangul(KOREAN_TERMS[i][0]) && IsHangul(KOREAN_TERMS[i][1])
  {
  }

  /** The simplified spellings are extra keys: none of them is also a traditional one. */
  lemma SimplifiedAreNew()
    ensures forall k :: k in SIMPLIFIED ==> k !in TRADITIONAL
  {
  }

  /** A name ending in a hanja is neither a SNAKE_CASE nor a CamelCase key. */
  lemma HanjaApart()
    ensures forall k :: k != [] && IsHanja(LastChar(k)) ==> k !in SNAKE_CASE && k !in CAMEL_CASE
  {
    SnakeCaseShape();
    CamelCaseShape();
  }

  /** A name ending in an upper-case letter is only possibly a SNAKE_CASE key. */
  lemma UpperApart()
    ensures forall k :: k != [] && IsUpper(LastChar(k)) ==> k !in TRADITIONAL && k !in SIMPLIFIED && k !in CAMEL_CASE
  {
    TraditionalShape();
    SimplifiedShape();
    CamelCaseShape();
  }

  /** A name ending in a lower-case letter is only possibly a CamelCase key. */
  lemma LowerApart()
    ensures forall k :: k != [] && IsLower(LastChar(k)) ==> k !in TRADITIONAL && k !in SIMPLIFIED && k !in SNAKE_CASE
  {
    TraditionalShape();
    SimplifiedShape();
    SnakeCaseShape();
  }

  /** A name ending in a Hangul syllable is no key at all. */
  lemma HangulApart()
    ensures forall k :: k != [] && IsHangul(LastChar(k)) ==> k !in JIE_QI_MAP
  {
    TraditionalShape();
    SimplifiedShape();
    SnakeCaseShape();
    CamelCaseShape();
  }

  /** No key of the table is empty. */
  lemma KeysNonEmpty()
    ensures "" !in JIE_QI_MAP
  {
    TraditionalShape();
    SimplifiedShape();
    SnakeCaseShape();
    CamelCaseShape();
  }

  /** The traditional hanja entries, key by key. */
  lemma TraditionalEntries()
    ensures "立春" in TRADITIONAL && TRADITIONAL["立春"] == "입춘"
    ensures "雨水" in TRADITIONAL && TRADITIONAL["雨水"] == "우수"
    ensures "驚蟄" in TRADITIONAL && TRADITIONAL["驚蟄"] == "경칩"
    ensures "春分" in TRADITIONAL && TRADITIONAL["春分"] == "춘분"
    ensures "淸明" in TRADITIONAL && TRADITIONAL["淸明"] == "청명"
    ensures "穀雨" in TRADITIONAL && TRADITIONAL["穀雨"] == "곡우"
    ensures "立夏" in TRADITIONAL && TRADITIONAL["立夏"] == "입하"
    ensures "小滿" in TRADITIONAL && TRADITIONAL["小滿"] == "소만"
    ensures "芒種" in TRADITIONAL && TRADITIONAL["芒種"] == "망종"
    ensures "夏至" in TRADITIONAL && TRADITIONAL["夏至"] == "하지"
    ensures "小暑" in TRADITIONAL && TRADITIONAL["小暑"] == "소서"
    ensures "大暑" in TRADITIONAL && TRADITIONAL["大暑"] == "대서"
    ensures "立秋" in TRADITIONAL && TRADITIONAL["立秋"] == "입추"
    ensures "處暑" in TRADITIONAL && TRADITIONAL["處暑"] == "처서"
    ensures "白露" in TRADITIONAL && TRADITIONAL["白露"] == "백로"
    ensures "秋分" in TRADITIONAL && TRADITIONAL["秋分"] == "추분"
    ensures "寒露" in TRADITIONAL && TRADITIONAL["寒露"] == "한로"
    ensures "霜降" in TRADITIONAL && TRADITIONAL["霜降"] == "상강"
    ensures "立冬" in TRADITIONAL && TRADITIONAL["立冬"] == "입동"
    ensures "小雪" in TRADITIONAL && TRADITIONAL["小雪"] == "소설"
    ensures "大雪" in TRADITIONAL && TRADITIONAL["大雪"] == "대설"
    ensures "冬至" in TRADITIONAL && TRADITIONAL["冬至"] == "동지"
    ensures "小寒" in TRADITIONAL && TRADITIONAL["小寒"] == "소한"
    ensures "大寒" in TRADITIONAL && TRADITIONAL["大寒"] == "대한"
  {
  }

  /** The simplified hanja entries, key by key. */
  lemma SimplifiedEntries()
    ensures "惊蛰" in SIMPLIFIED && SIMPLIFIED["惊蛰"] == "경칩"
    ensures "清明" in SIMPLIFIED && SIMPLIFIED["清明"] == "청명"
    ensures "谷雨" in SIMPLIFIED && SIMPLIFIED["谷雨"] == "곡우"
    ensures "小满" in SIMPLIFIED && SIMPLIFIED["小满"] == "소만"
    ensures "芒种" in SIMPLIFIED && SIMPLIFIED["芒种"] == "망종"
    ensures "处暑" in SIMPLIFIED && SIMPLIFIED["处暑"] == "처서"
  {
  }

  /** The SNAKE_CASE entries, key by key. */
  lemma SnakeCaseEntries()
    ensures "LI_CHUN" in SNAKE_CASE && SNAKE_CASE["LI_CHUN"] == "입춘"
    ensures "YU_SHUI" in SNAKE_CASE && SNAKE_CASE["YU_SHUI"] == "우수"
    ensures "JING_ZHE" in SNAKE_CASE && SNAKE_CASE["JING_ZHE"] == "경칩"
    ensures "CHUN_FEN" in SNAKE_CASE && SNAKE_CASE["CHUN_FEN"] == "춘분"
    ensures "QING_MING" in SNAKE_CASE && SNAKE_CASE["QING_MING"] == "청명"
    ensures "GU_YU" in SNAKE_CASE && SNAKE_CASE["GU_YU"] == "곡우"
    ensures "LI_XIA" in SNAKE_CASE && SNAKE_CASE["LI_XIA"] == "입하"
    ensures "XIAO_MAN" in SNAKE_CASE && SNAKE_CASE["XIAO_MAN"] == "소만"
    ensures "MANG_ZHONG" in SNAKE_CASE && SNAKE_CASE["MANG_ZHONG"] == "망종"
    ensures "XIA_ZHI" in SNAKE_CASE && SNAKE_CASE["XIA_ZHI"] == "하지"
    ensures "XIAO_SHU" in SNAKE_CASE && SNAKE_CASE["XIAO_SHU"] == "소서"
    ensures "DA_SHU" in SNAKE_CASE && SNAKE_CASE["DA_SHU"] == "대서"
    ensures "LI_QIU" in SNAKE_CASE && SNAKE_CASE["LI_QIU"] == "입추"
    ensures "CHU_SHU" in SNAKE_CASE && SNAKE_CASE["CHU_SHU"] == "처서"
    ensures "BAI_LU" in SNAKE_CASE && SNAKE_CASE["BAI_LU"] == "백로"
    ensures "QIU_FEN" in SNAKE_CASE && SNAKE_CASE["QIU_FEN"] == "추분"
    ensures "HAN_LU" in SNAKE_CASE && SNAKE_CASE["HAN_LU"] == "한로"
    ensures "SHUANG_JIANG" in SNAKE_CASE && SNAKE_CASE["SHUANG_JIANG"] == "상강"
    ensures "LI_DONG" in SNAKE_CASE && SNAKE_CASE["LI_DONG"] == "입동"
    ensures "XIAO_XUE" in SNAKE_CASE && SNAKE_CASE["XIAO_XUE"] == "소설"
    ensures "DA_XUE" in SNAKE_CASE && SNAKE_CASE["DA_XUE"] == "대설"
    ensures "DONG_ZHI" in SNAKE_CASE && SNAKE_CASE["DONG_ZHI"] == "동지"
    ensures "XIAO_HAN" in SNAKE_CASE && SNAKE_CASE["XIAO_HAN"] == "소한"
    ensures "DA_HAN" in SNAKE_CASE && SNAKE_CASE["DA_HAN"] == "대한"
  {
  }

  /** The CamelCase entries, key by key. */
  lemma CamelCaseEntries()
    ensures "Lichun" in CAMEL_CASE && CAMEL_CASE["Lichun"] == "입춘"
    ensures "Yushui" in CAMEL_CASE && CAMEL_CASE["Yushui"] == "우수"
    ensures "Jingzhe" in CAMEL_CASE && CAMEL_CASE["Jingzhe"] == "경칩"
    ensures "Chunfen" in CAMEL_CASE && CAMEL_CASE["Chunfen"] == "춘분"
    ensures "Qingming" in CAMEL_CASE && CAMEL_CASE["Qingming"] == "청명"
    ensures "Guyu" in CAMEL_CASE && CAMEL_CASE["Guyu"] == "곡우"
    ensures "Lixia" in CAMEL_CASE && CAMEL_CASE["Lixia"] == "입하"
    ensures "Xiaoman" in CAMEL_CASE && CAMEL_CASE["Xiaoman"] == "소만"
    ensures "Mangzhong" in CAMEL_CASE && CAMEL_CASE["Mangzhong"] == "망종"
    ensures "Xiazhi" in CAMEL_CASE && CAMEL_CASE["Xiazhi"] == "하지"
    ensures "Xiaoshu" in CAMEL_CASE && CAMEL_CASE["Xiaoshu"] == "소서"
    ensures "Dashu" in CAMEL_CASE && CAMEL_CASE["Dashu"] == "대서"
    ensures "Liqiu" in CAMEL_CASE && CAMEL_CASE["Liqiu"] == "입추"
    ensures "Chushu" in CAMEL_CASE && CAMEL_CASE["Chushu"] == "처서"
    ensures "Bailu" in CAMEL_CASE && CAMEL_CASE["Bailu"] == "백로"
    ensures "Qiufen" in CAMEL_CASE && CAMEL_CASE["Qiufen"] == "추분"
    ensures "Hanlu" in CAMEL_CASE && CAMEL_CASE["Hanlu"] == "한로"
    ensures "Shuangjiang" in CAMEL_CASE && CAMEL_CASE["Shuangjiang"] == "상강"
    ensures "Lidong" in CAMEL_CASE && CAMEL_CASE["Lidong"] == "입동"
    ensures "Xiaoxue" in CAMEL_CASE && CAMEL_CASE["Xiaoxue"] == "소설"
    ensures "Daxue" in CAMEL_CASE && CAMEL_CASE["Daxue"] == "대설"
    ensures "Dongzhi" in CAMEL_CASE && CAMEL_CASE["Dongzhi"] == "동지"
    ensures "Xiaohan" in CAMEL_CASE && CAMEL_CASE["Xiaohan"] == "소한"
    ensures "Dahan" in CAMEL_CASE && CAMEL_CASE["Dahan"] == "대한"
  {
  }

  lemma TraditionalInTable(k: string)
    requires k in TRADITIONAL
    ensures k in JIE_QI_MAP && JIE_QI_MAP[k] == TRADITIONAL[k]
  {
    TraditionalShape();
    SimplifiedAreNew();
    HanjaApart();
  }

  lemma SimplifiedInTable(k: string)
    requires k in SIMPLIFIED
    ensures k in JIE_QI_MAP && JIE_QI_MAP[k] == SIMPLIFIED[k]
  {
    SimplifiedShape();
    HanjaApart();
  }

  lemma SnakeCaseInTable(k: string)
    requires k in SNAKE_CASE
    ensures k in JIE_QI_MAP && JIE_QI_MAP[k] == SNAKE_CASE[k]
  {
    SnakeCaseShape();
    UpperApart();
  }

  lemma CamelCaseInTable(k: string)
    requires k in CAMEL_CASE
    ensures k in JIE_QI_MAP && JIE_QI_MAP[k] == CAMEL_CASE[k]
  {
  }

  // ---------------------------------------------------------------------------
  // The lookup

  /** `toUpperCase` on one character, for the Latin letters a to z. */
  function UpperChar(c: char): (u: char)
    ensures IsLower(c) ==> IsUpper(u) && u as int == c as int - 32
    ensures !IsLower(c) ==> u == c
  {
    if IsLower(c) then (c as int - 32) as char else c
  }

  /** `name.toUpperCase()`, for names whose only cased letters are a to z. */
  function ToUpper(s: string): (r: string)
    ensures |r| == |s|
    ensures forall i :: 0 <= i < |s| ==> r[i] == UpperChar(s[i])
  {
    if s == [] then [] else [UpperChar(s[0])] + ToUpper(s[1..])
  }

  /** A name without Latin lower-case letters is its own upper case. */
  lemma ToUpperKeeps(s: string)
    requires forall i :: 0 <= i < |s| ==> !IsLower(s[i])
    ensures ToUpper(s) == s
  {
  }

  lemma TraditionalValues()
    ensures forall k :: k in TRADITIONAL ==> TRADITIONAL[k] in KOREAN_TERMS
  {
  }

  lemma SimplifiedValues()
    ensures forall k :: k in SIMPLIFIED ==> SIMPLIFIED[k] in KOREAN_TERMS
  {
  }

  lemma SnakeCaseValues()
    ensures forall k :: k in SNAKE_CASE ==> SNAKE_CASE[k] in KOREAN_TERMS
  {
  }

  lemma CamelCaseValues()
    ensures forall k :: k in CAMEL_CASE ==> CAMEL_CASE[k] in KOREAN_TERMS
  {
  }

  /** Every label of the table is one of the 24 Korean term names. */
  lemma TableValuesAreTerms()
    ensures forall k :: k in JIE_QI_MAP ==> JIE_QI_MAP[k] in KOREAN_TERMS
  {
    TraditionalValues();
    SimplifiedValues();
    SnakeCaseValues();
    CamelCaseValues();
  }

  /**
   * `JIE_QI_MAP[name] || JIE_QI_MAP[name.toUpperCase()] || name`: a name the
   * table knows, as written or in upper case, becomes a Korean term name, the
   * exact spelling taking precedence; any other name is kept as it is. It is
   * total: no name makes it fail.
   */
  function JieQiLabel(name: string): (term: string)
    ensures name in JIE_QI_MAP ==> term == JIE_QI_MAP[name]
    ensures name in JIE_QI_MAP || ToUpper(name) in JIE_QI_MAP ==> term in KOREAN_TERMS
    ensures name !in JIE_QI_MAP && ToUpper(name) in JIE_QI_MAP ==> term == JIE_QI_MAP[ToUpper(name)]
    ensures name !in JIE_QI_MAP && ToUpper(name) !in JIE_QI_MAP ==> term == name
  {
    TableValuesAreTerms();
    if name in JIE_QI_MAP then JIE_QI_MAP[name]
    else if ToUpper(name) in JIE_QI_MAP then JIE_QI_MAP[ToUpper(name)]
    else name
  }

  lemma LabelIsValue(m: map<string, string>, k: string)
    requires k in m
    ensures m[k] in m.Values
  {
  }

  /** The six spring term names are labels of the table, each that of its traditional name. */
  lemma SpringTermsAreLabels()
    ensures "입춘" in JIE_QI_MAP.Values
    ensures "우수" in JIE_QI_MAP.Values
    ensures "경칩" in JIE_QI_MAP.Values
    ensures "춘분" in JIE_QI_MAP.Values
    ensures "청명" in JIE_QI_MAP.Values
    ensures "곡우" in JIE_QI_MAP.Values
  {
    TraditionalEntries();
    TraditionalInTable("立春");
    LabelIsValue(JIE_QI_MAP, "立春");
    TraditionalInTable("雨水");
    LabelIsValue(JIE_QI_MAP, "雨水");
    TraditionalInTable("驚蟄");
    LabelIsValue(JIE_QI_MAP, "驚蟄");
    TraditionalInTable("春分");
    LabelIsValue(JIE_QI_MAP, "春分");
    TraditionalInTable("淸明");
    LabelIsValue(JIE_QI_MAP, "淸明");
    TraditionalInTable("穀雨");
    LabelIsValue(JIE_QI_MAP, "穀雨");
  }

  /** The six summer term names are labels of the table, each that of its traditional name. */
  lemma SummerTermsAreLabels()
    ensures "입하" in JIE_QI_MAP.Values
    ensures "소만" in JIE_QI_MAP.Values
    ensures "망종" in JIE_QI_MAP.Values
    ensures "하지" in JIE_QI_MAP.Values
    ensures "소서" in JIE_QI_MAP.Values
    ensures "대서" in JIE_QI_MAP.Values
  {
    TraditionalEntries();
    TraditionalInTable("立夏");
    LabelIsValue(JIE_QI_MAP, "立夏");
    TraditionalInTable("小滿");
    LabelIsValue(JIE_QI_MAP, "小滿");
    TraditionalInTable("芒種");
    LabelIsValue(JIE_QI_MAP, "芒種");
    TraditionalInTable("夏至");
    LabelIsValue(JIE_QI_MAP, "夏至");
    TraditionalInTable("小暑");
    LabelIsValue(JIE_QI_MAP, "小暑");
    TraditionalInTable("大暑");
    LabelIsValue(JIE_QI_MAP, "大暑");
  }

  /** The six autumn term names are labels of the table, each that of its traditional name. */
  lemma AutumnTermsAreLabels()
    ensures "입추" in JIE_QI_MAP.Values
    ensures "처서" in JIE_QI_MAP.Values
    ensures "백로" in JIE_QI_MAP.Values
    ensures "추분" in JIE_QI_MAP.Values
    ensures "한로" in JIE_QI_MAP.Values
    ensures "상강" in JIE_QI_MAP.Values
  {
    TraditionalEntries();
    TraditionalInTable("立秋");
    LabelIsValue(JIE_QI_MAP, "立秋");
    TraditionalInTable("處暑");
    LabelIsValue(JIE_QI_MAP, "處暑");
    TraditionalInTable("白露");
    LabelIsValue(JIE_QI_MAP, "白露");
    TraditionalInTable("秋分");
    LabelIsValue(JIE_QI_MAP, "秋分");
    TraditionalInTable("寒露");
    LabelIsValue(JIE_QI_MAP, "寒露");
    TraditionalInTable("霜降");
    LabelIsValue(JIE_QI_MAP, "霜降");
  }

  /** The six winter term names are labels of the table, each that of its traditional name. */
  lemma WinterTermsAreLabels()
    ensures "입동" in JIE_QI_MAP.Values
    ensures "소설" in JIE_QI_MAP.Values
    ensures "대설" in JIE_QI_MAP.Values
    ensures "동지" in JIE_QI_MAP.Values
    ensures "소한" in JIE_QI_MAP.Values
    ensures "대한" in JIE_QI_MAP.Values
  {
    TraditionalEntries();
    TraditionalInTable("立冬");
    LabelIsValue(JIE_QI_MAP, "立冬");
    TraditionalInTable("小雪");
    LabelIsValue(JIE_QI_MAP, "小雪");
    TraditionalInTable("大雪");
    LabelIsValue(JIE_QI_MAP, "大雪");
    TraditionalInTable("冬至");
    LabelIsValue(JIE_QI_MAP, "冬至");
    TraditionalInTable("小寒");
    LabelIsValue(JIE_QI_MAP, "小寒");
    TraditionalInTable("大寒");
    LabelIsValue(JIE_QI_MAP, "大寒");
  }

  /** The labels of the table are exactly the 24 Korean term names. */
  lemma TableValues()
    ensures JIE_QI_MAP.Values == set t | t in KOREAN_TERMS
  {
    TableValuesAreTerms();
    SpringTermsAreLabels();
    SummerTermsAreLabels();
    AutumnTermsAreLabels();
    WinterTermsAreLabels();
  }

  /** The traditional, SNAKE_CASE and CamelCase names of the four terms of February and March give the same Korean name. */
  lemma SpellingsAgreeFebMar()
    ensures JieQiLabel("立春") == "입춘" && JieQiLabel("LI_CHUN") == "입춘" && JieQiLabel("Lichun") == "입춘"
    ensures JieQiLabel("雨水") == "우수" && JieQiLabel("YU_SHUI") == "우수" && JieQiLabel("Yushui") == "우수"
    ensures JieQiLabel("驚蟄") == "경칩" && JieQiLabel("JING_ZHE") == "경칩" && JieQiLabel("Jingzhe") == "경칩"
    ensures JieQiLabel("春分") == "춘분" && JieQiLabel("CHUN_FEN") == "춘분" && JieQiLabel("Chunfen") == "춘분"
  {
    TraditionalEntries();
    SnakeCaseEntries();
    CamelCaseEntries();
    TraditionalInTable("立春");
    SnakeCaseInTable("LI_CHUN");
    CamelCaseInTable("Lichun");
    TraditionalInTable("雨水");
    SnakeCaseInTable("YU_SHUI");
    CamelCaseInTable("Yushui");
    TraditionalInTable("驚蟄");
    SnakeCaseInTable("JING_ZHE");
    CamelCaseInTable("Jingzhe");
    TraditionalInTable("春分");
    SnakeCaseInTable("CHUN_FEN");
    CamelCaseInTable("Chunfen");
  }

  /** The traditional, SNAKE_CASE and CamelCase names of the four terms of April and May give the same Korean name. */
  lemma SpellingsAgreeAprMay()
    ensures JieQiLabel("淸明") == "청명" && JieQiLabel("QING_MING") == "청명" && JieQiLabel("Qingming") == "청명"
    ensures JieQiLabel("穀雨") == "곡우" && JieQiLabel("GU_YU") == "곡우" && JieQiLabel("Guyu") == "곡우"
    ensures JieQiLabel("立夏") == "입하" && JieQiLabel("LI_XIA") == "입하" && JieQiLabel("Lixia") == "입하"
    ensures JieQiLabel("小滿") == "소만" && JieQiLabel("XIAO_MAN") == "소만" && JieQiLabel("Xiaoman") == "소만"
  {
    TraditionalEntries();
    SnakeCaseEntries();
    CamelCaseEntries();
    TraditionalInTable("淸明");
    SnakeCaseInTable("QING_MING");
    CamelCaseInTable("Qingming");
    TraditionalInTable("穀雨");
    SnakeCaseInTable("GU_YU");
    CamelCaseInTable("Guyu");
    TraditionalInTable("立夏");
    SnakeCaseInTable("LI_XIA");
    CamelCaseInTable("Lixia");
    TraditionalInTable("小滿");
    SnakeCaseInTable("XIAO_MAN");
    CamelCaseInTable("Xiaoman");
  }

  /** The traditional, SNAKE_CASE and CamelCase names of the four terms of June and July give the same Korean name. */
  lemma SpellingsAgreeJunJul()
    ensures JieQiLabel("芒種") == "망종" && JieQiLabel("MANG_ZHONG") == "망종" && JieQiLabel("Mangzhong") == "망종"
    ensures JieQiLabel("夏至") == "하지" && JieQiLabel("XIA_ZHI") == "하지" && JieQiLabel("Xiazhi") == "하지"
    ensures JieQiLabel("小暑") == "소서" && JieQiLabel("XIAO_SHU") == "소서" && JieQiLabel("Xiaoshu") == "소서"
    ensures JieQiLabel("大暑") == "대서" && JieQiLabel("DA_SHU") == "대서" && JieQiLabel("Dashu") == "대서"
  {
    TraditionalEntries();
    SnakeCaseEntries();
    CamelCaseEntries();
    TraditionalInTable("芒種");
    SnakeCaseInTable("MANG_ZHONG");
    CamelCaseInTable("Mangzhong");
    TraditionalInTable("夏至");
    SnakeCaseInTable("XIA_ZHI");
    CamelCaseInTable("Xiazhi");
    TraditionalInTable("小暑");
    SnakeCaseInTable("XIAO_SHU");
    CamelCaseInTable("Xiaoshu");
    TraditionalInTable("大暑");
    SnakeCaseInTable("DA_SHU");
    CamelCaseInTable("Dashu");
  }

  /** The traditional, SNAKE_CASE and CamelCase names of the four terms of August and September give the same Korean name. */
  lemma SpellingsAgreeAugSep()
    ensures JieQiLabel("立秋") == "입추" && JieQiLabel("LI_QIU") == "입추" && JieQiLabel("Liqiu") == "입추"
    ensures JieQiLabel("處暑") == "처서" && JieQiLabel("CHU_SHU") == "처서" && JieQiLabel("Chushu") == "처서"
    ensures JieQiLabel("白露") == "백로" && JieQiLabel("BAI_LU") == "백로" && JieQiLabel("Bailu") == "백로"
    ensures JieQiLabel("秋分") == "추분" && JieQiLabel("QIU_FEN") == "추분" && JieQiLabel("Qiufen") == "추분"
  {
    TraditionalEntries();
    SnakeCaseEntries();
    CamelCaseEntries();
    TraditionalInTable("立秋");
    SnakeCaseInTable("LI_QIU");
    CamelCaseInTable("Liqiu");
    TraditionalInTable("處暑");
    SnakeCaseInTable("CHU_SHU");
    CamelCaseInTable("Chushu");
    TraditionalInTable("白露");
    SnakeCaseInTable("BAI_LU");
    CamelCaseInTable("Bailu");
    TraditionalInTable("秋分");
    SnakeCaseInTable("QIU_FEN");
    CamelCaseInTable("Qiufen");
  }

  /** The traditional, SNAKE_CASE and CamelCase names of the four terms of October and November give the same Korean name. */
  lemma SpellingsAgreeOctNov()
    ensures JieQiLabel("寒露") == "한로" && JieQiLabel("HAN_LU") == "한로" && JieQiLabel("Hanlu") == "한로"
    ensures JieQiLabel("霜降") == "상강" && JieQiLabel("SHUANG_JIANG") == "상강" && JieQiLabel("Shuangjiang") == "상강"
    ensures JieQiLabel("立冬") == "입동" && JieQiLabel("LI_DONG") == "입동" && JieQiLabel("Lidong") == "입동"
    ensures JieQiLabel("小雪") == "소설" && JieQiLabel("XIAO_XUE") == "소설" && JieQiLabel("Xiaoxue") == "소설"
  {
    TraditionalEntries();
    SnakeCaseEntries();
    CamelCaseEntries();
    TraditionalInTable("寒露");
    SnakeCaseInTable("HAN_LU");
    CamelCaseInTable("Hanlu");
    TraditionalInTable("霜降");
    SnakeCaseInTable("SHUANG_JIANG");
    CamelCaseInTable("Shuangjiang");
    TraditionalInTable("立冬");
    SnakeCaseInTable("LI_DONG");
    CamelCaseInTable("Lidong");
    TraditionalInTable("小雪");
    SnakeCaseInTable("XIAO_XUE");
    CamelCaseInTable("Xiaoxue");
  }

  /** The traditional, SNAKE_CASE and CamelCase names of the four terms of December and January give the same Korean name. */
  lemma SpellingsAgreeDecJan()
    ensures JieQiLabel("大雪") == "대설" && JieQiLabel("DA_XUE") == "대설" && JieQiLabel("Daxue") == "대설"
    ensures JieQiLabel("冬至") == "동지" && JieQiLabel("DONG_ZHI") == "동지" && JieQiLabel("Dongzhi") == "동지"
    ensures JieQiLabel("小寒") == "소한" && JieQiLabel("XIAO_HAN") == "소한" && JieQiLabel("Xiaohan") == "소한"
    ensures JieQiLabel("大寒") == "대한" && JieQiLabel("DA_HAN") == "대한" && JieQiLabel("Dahan") == "대한"
  {
    TraditionalEntries();
    SnakeCaseEntries();
    CamelCaseEntries();
    TraditionalInTable("大雪");
    SnakeCaseInTable("DA_XUE");
    CamelCaseInTable("Daxue");
    TraditionalInTable("冬至");
    SnakeCaseInTable("DONG_ZHI");
    CamelCaseInTable("Dongzhi");
    TraditionalInTable("小寒");
    SnakeCaseInTable("XIAO_HAN");
    CamelCaseInTable("Xiaohan");
    TraditionalInTable("大寒");
    SnakeCaseInTable("DA_HAN");
    CamelCaseInTable("Dahan");
  }

  /** Each simplified spelling of a spring term gives the same Korean name as its traditional spelling. */
  lemma SimplifiedAgreeSpring()
    ensures JieQiLabel("惊蛰") == JieQiLabel("驚蟄") == "경칩"
    ensures JieQiLabel("清明") == JieQiLabel("淸明") == "청명"
    ensures JieQiLabel("谷雨") == JieQiLabel("穀雨") == "곡우"
  {
    TraditionalEntries();
    SimplifiedEntries();
    SimplifiedInTable("惊蛰");
    TraditionalInTable("驚蟄");
    SimplifiedInTable("清明");
    TraditionalInTable("淸明");
    SimplifiedInTable("谷雨");
    TraditionalInTable("穀雨");
  }

  /** Each simplified spelling of a summer and autumn term gives the same Korean name as its traditional spelling. */
  lemma SimplifiedAgreeSummer()
    ensures JieQiLabel("小满") == JieQiLabel("小滿") == "소만"
    ensures JieQiLabel("芒种") == JieQiLabel("芒種") == "망종"
    ensures JieQiLabel("处暑") == JieQiLabel("處暑") == "처서"
  {
    TraditionalEntries();
    SimplifiedEntries();
    SimplifiedInTable("小满");
    TraditionalInTable("小滿");
    SimplifiedInTable("芒种");
    TraditionalInTable("芒種");
    SimplifiedInTable("处暑");
    TraditionalInTable("處暑");
  }

  /** `li_chun` is no key, but its upper-case form `LI_CHUN` is, so it gives 입춘. */
  lemma LowerSnakeCaseFound()
    ensures JieQiLabel("li_chun") == "입춘"
  {
    LowerSnakeCaseNotKey();
    LowerSnakeCaseUpper();
    SnakeCaseEntries();
    SnakeCaseInTable("LI_CHUN");
  }

  lemma LowerSnakeCaseNotKey()
    ensures "li_chun" !in JIE_QI_MAP
  {
    LowerSnakeCaseNotCamelCase();
    LowerNotKey("li_chun");
  }

  /** A name ending in a lower-case letter is a key only when it is a CamelCase key. */
  lemma LowerNotKey(k: string)
    requires k != [] && IsLower(LastChar(k)) && k !in CAMEL_CASE
    ensures k !in JIE_QI_MAP
  {
    LowerApart();
  }

  lemma LowerSnakeCaseNotCamelCase()
    ensures "li_chun" !in CAMEL_CASE
  {
  }

  lemma LowerSnakeCaseUpper()
    ensures ToUpper("li_chun") == "LI_CHUN"
  {
  }

  /** Only the upper-case form is tried, so the lower-case CamelCase name `lichun` is not recognised and stays as it is. */
  lemma LowerCamelCaseKept()
    ensures JieQiLabel("lichun") == "lichun"
  {
    LowerCamelCaseNotKey();
    LowerCamelCaseUpper();
    UpperCamelCaseNotKey();
  }

  lemma LowerCamelCaseNotKey()
    ensures "lichun" !in JIE_QI_MAP
  {
    LowerCamelCaseNotCamelCase();
    LowerNotKey("lichun");
  }

  lemma LowerCamelCaseNotCamelCase()
    ensures "lichun" !in CAMEL_CASE
  {
  }

  lemma LowerCamelCaseUpper()
    ensures ToUpper("lichun") == "LICHUN"
  {
  }

  lemma UpperCamelCaseNotKey()
    ensures "LICHUN" !in JIE_QI_MAP
  {
    UpperCamelCaseNotSnakeCase();
    UpperNotKey("LICHUN");
  }

  /** A name ending in an upper-case letter is a key only when it is a SNAKE_CASE key. */
  lemma UpperNotKey(k: string)
    requires k != [] && IsUpper(LastChar(k)) && k !in SNAKE_CASE
    ensures k !in JIE_QI_MAP
  {
    UpperApart();
  }

  lemma UpperCamelCaseNotSnakeCase()
    ensures "LICHUN" !in SNAKE_CASE
  {
  }

  /** A Korean term name is no key, in any case, so it is its own label. */
  lemma KoreanTermKept(t: string)
    requires t in KOREAN_TERMS
    ensures t !in JIE_QI_MAP && ToUpper(t) == t
    ensures JieQiLabel(t) == t
  {
    KoreanShape();
    HangulApart();
    ToUpperKeeps(t);
  }

  /** Looking a label up again changes nothing. */
  lemma JieQiLabelIdempotent(name: string)
    ensures JieQiLabel(JieQiLabel(name)) == JieQiLabel(name)
  {
    if name in JIE_QI_MAP || ToUpper(name) in JIE_QI_MAP {
      KoreanTermKept(JieQiLabel(name));
    }
  }

  /** Only the empty name gets the empty label, which JavaScript's `||` would read as no term. */
  lemma JieQiLabelEmpty(name: string)
    ensures JieQiLabel(name) == "" <==> name == ""
  {
    if name in JIE_QI_MAP || ToUpper(name) in JIE_QI_MAP {
      TermsNonEmpty(JieQiLabel(name));
      KeysNonEmpty();
    }
  }

  lemma TermsNonEmpty(t: string)
    requires t in KOREAN_TERMS
    ensures t != ""
  {
    KoreanShape();
  }

  // ---------------------------------------------------------------------------
  // The per-year term map

  /** The term map of a term table: each entry with a date writes its label there, a later entry over an earlier one. */
  function TermMapOf(table: seq<JieQiEntry>): map<Day, string>
  {
    if table == [] then map[]
    else
      var terms, last := TermMapOf(table[..|table| - 1]), table[|table| - 1];
      if last.solar.Some? then terms[last.solar.value := JieQiLabel(last.name)] else terms
  }

  /** `kstJieQiMap`: the terms of the table `lunar-javascript` gives for `year`, keyed by their dates. */
  method BuildTermMap(year: int, cal: LunarCalendar) returns (terms: map<Day, string>)
    ensures terms == TermMapOf(cal.jieQiTable(year))
  {
    var table := cal.jieQiTable(year);
    terms := map[];
    for i := 0 to |table|
      invariant terms == TermMapOf(table[..i])
    {
      assert table[..i + 1][..i] == table[..i];
      var entry := table[i];
      if entry.solar.Some? {
        terms := terms[entry.solar.value := JieQiLabel(entry.name)];
      }
    }
    assert table[..|table|] == table;
  }

  /** A date is in the term map exactly when some entry of the table falls on it. */
  lemma {:induction false} TermMapKeys(table: seq<JieQiEntry>, d: Day)
    ensures d in TermMapOf(table) <==> exists i :: 0 <= i < |table| && table[i].solar == Some(d)
  {
    if table != [] {
      var n := |table| - 1;
      var prefix := table[..n];
      TermMapKeys(prefix, d);
      if table[n].solar == Some(d) {
        assert d in TermMapOf(table);
      } else {
        assert d in TermMapOf(table) <==> d in TermMapOf(prefix);
        if d in TermMapOf(prefix) {
          var i :| 0 <= i < n && prefix[i].solar == Some(d);
          assert table[i] == prefix[i];
        }
        if exists i :: 0 <= i < |table| && table[i].solar == Some(d) {
          var i :| 0 <= i < |table| && table[i].solar == Some(d);
          assert prefix[i] == table[i];
        }
      }
    }
  }

  /** The label on a date is that of the last entry of the table on it: a later entry replaces an earlier one. */
  lemma {:induction false} TermMapLastWins(table: seq<JieQiEntry>, i: nat, d: Day)
    requires i < |table| && table[i].solar == Some(d)
    requires forall j :: i < j < |table| ==> table[j].solar != Some(d)
    ensures d in TermMapOf(table) && TermMapOf(table)[d] == JieQiLabel(table[i].name)
  {
    var n := |table| - 1;
    if i < n {
      var prefix := table[..n];
      assert forall j :: i < j < n ==> prefix[j] == table[j];
      TermMapLastWins(prefix, i, d);
      assert table[n].solar != Some(d);
    }
  }

  /** When the library gives no empty term name, every date the term map lists carries a non-empty label. */
  lemma {:induction false} TermMapLabelsNonEmpty(table: seq<JieQiEntry>, d: Day)
    requires forall i :: 0 <= i < |table| ==> table[i].name != ""
    requires d in TermMapOf(table)
    ensures TermMapOf(table)[d] != ""
  {
    var n := |table| - 1;
    if table[n].solar == Some(d) {
      JieQiLabelEmpty(table[n].name);
    } else {
      var prefix := table[..n];
      assert forall i :: 0 <= i < n ==> prefix[i] == table[i];
      TermMapLabelsNonEmpty(prefix, d);
    }
  }
}
