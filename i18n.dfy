/** Translation lookup (lib/i18n.ts): two constant string tables and a
    three-level fallback, the chosen language's entry, then the default
    language's entry, then the key itself. The language that React's
    context would supply is a parameter. */
module I18n {
  import opened ColorTypes

  datatype Language = Zh | En

  const DefaultLanguage: Language := En

  /** An entry of the language menu: its shown text and its language. */
  datatype LanguageOption = LanguageOption(text: string, value: Language)

  const Languages: seq<LanguageOption> := [LanguageOption("中文", Zh), LanguageOption("English", En)]

  const ZhTable: map<string, string> := map[
      "title" := "色卡生成工具",
      "random" := "随机生成",
      "image" := "图片提取",
      "eyedropper" := "取色器",
      "palette" := "色卡",
      "colorCount" := "颜色数量",
      "quality" := "质量 (越低越精确)",
      "upload" := "上传图片",
      "copy" := "复制",
      "github" := "GitHub",
      "copied" := "已复制到剪贴板",
      "invalidFileType" := "无效的文件类型",
      "pleaseUploadImage" := "请上传图片文件",
      "uploadFailed" := "文件上传失败",
      "pleaseRetry" := "请重试",
      "extractFailed" := "提取颜色失败",
      "tryOtherImage" := "请尝试其他图片或参数",
      "emptyRandom" := "点击生成随机色卡",
      "emptyImage" := "上传图片以提取色卡",
      "emptyEyedropper" := "上传图片并点击任意位置选取颜色",
      "descRandom" := "生成随机和谐的色卡",
      "regenerate" := "重新生成色卡",
      "descImage" := "上传或拖拽图片以提取色卡",
      "descEyedropper" := "从图片中直接选取颜色",
      "pickColorTip" := "点击图片上的任意位置选取颜色",
      "dragTip" := "点击或拖拽图片到此处",
      "formatTip" := "支持 JPG, PNG, GIF 等格式",
      "selectedColor" := "已选取颜色",
      "descPaletteRandom" := "随机生成的色卡",
      "descPaletteImage" := "从图片中提取的色卡",
      "descPaletteEyedropper" := "从图片中选取的颜色"
    ]

  const EnTable: map<string, string> := map[
      "title" := "Color Palette Generator",
      "random" := "Random",
      "image" := "Image Extract",
      "eyedropper" := "Eyedropper",
      "palette" := "Palette",
      "colorCount" := "Color Count",
      "quality" := "Quality (lower is more accurate)",
      "upload" := "Upload Image",
      "copy" := "Copy",
      "github" := "GitHub",
      "copied" := "Copied to clipboard",
      "invalidFileType" := "Invalid file type",
      "pleaseUploadImage" := "Please upload an image file",
      "uploadFailed" := "Upload failed",
      "pleaseRetry" := "Please retry",
      "extractFailed" := "Color extraction failed",
      "tryOtherImage" := "Please try another image or parameter",
      "emptyRandom" := "Click to generate random palette",
      "emptyImage" := "Upload image to extract palette",
      "emptyEyedropper" := "Upload image and click anywhere to pick color",
      "descRandom" := "Generate harmonious random palette",
      "regenerate" := "Regenerate",
      "descImage" := "Upload or drag image to extract palette",
      "descEyedropper" := "Pick color directly from image",
      "pickColorTip" := "Click anywhere on image to pick color",
      "dragTip" := "Click or drag image here",
      "formatTip" := "Supports JPG, PNG, GIF",
      "selectedColor" := "Selected Color",
      "descPaletteRandom" := "Randomly generated palette",
      "descPaletteImage" := "Palette extracted from image",
      "descPaletteEyedropper" := "Color picked from image"
    ]

  function Translations(lang: Language): map<string, string> {
    match lang
    case Zh => ZhTable
    case En => EnTable
  }

  /** `TRANSLATIONS[lang][key]` as `||` sees it: a missing key and an empty
      string are both falsy, so both give None. */
  function Entry(lang: Language, key: string): Option<string> {
    if key in Translations(lang) && Translations(lang)[key] != "" then Some(Translations(lang)[key]) else None
  }

  /** What `React.useContext(LanguageContext)` gave: the hook threw, or a
      context whose language may be missing (falsy). */
  datatype ContextRead = HookThrew | Provided(lang: Option<Language>)

  /** `context && context.lang ? context.lang : DEFAULT_LANGUAGE`. */
  function ContextLanguage(lang: Option<Language>): Language {
    if lang.Some? then lang.value else DefaultLanguage
  }

  /** `getTranslation(key)`. The result is the context language's entry when
      that is non-empty; it is always one of the two tables' entries for the
      key or the key itself, and it is never empty unless the key is. */
  function GetTranslation(context: ContextRead, key: string): (r: string)
    ensures key != "" ==> r != ""
    ensures r == key || Entry(Zh, key) == Some(r) || Entry(En, key) == Some(r)
    ensures context.Provided? && Entry(ContextLanguage(context.lang), key).Some? ==>
      r == Entry(ContextLanguage(context.lang), key).value
    ensures context.HookThrew? ==> r == key || Entry(DefaultLanguage, key) == Some(r)
  {
    match context
    case Provided(lang) =>
      var chosen := Entry(ContextLanguage(lang), key);
      if chosen.Some? then chosen.value
      else if Entry(DefaultLanguage, key).Some? then Entry(DefaultLanguage, key).value
      else key
    case HookThrew =>
      if Entry(DefaultLanguage, key).Some? then Entry(DefaultLanguage, key).value
      else key
  }

  /** Both tables define the same keys. */
  lemma SameKeys()
    ensures ZhTable.Keys == EnTable.Keys
  {
  }

  lemma ZhEntriesNonEmpty()
    ensures forall key :: key in ZhTable ==> ZhTable[key] != ""
  {
  }

  lemma EnEntriesNonEmpty()
    ensures forall key :: key in EnTable ==> EnTable[key] != ""
  {
  }

  /** No table entry is the empty string. */
  lemma EntriesNonEmpty(lang: Language, key: string)
    requires key in Translations(lang)
    ensures Translations(lang)[key] != ""
  {
    match lang
    case Zh => ZhEntriesNonEmpty();
    case En => EnEntriesNonEmpty();
  }

  /** A key of either table is translated into the context language (or the
      default language when the hook throws) and never falls back to itself. */
  lemma KnownKeyTranslated(lang: Language, key: string)
    requires key in ZhTable || key in EnTable
    ensures GetTranslation(Provided(Some(lang)), key) == Translations(lang)[key]
    ensures GetTranslation(HookThrew, key) == EnTable[key]
  {
    SameKeys();
    EntriesNonEmpty(lang, key);
    EntriesNonEmpty(En, key);
  }

  /** A key in neither table comes back unchanged, whatever the context. */
  lemma UnknownKeyIsItself(context: ContextRead, key: string)
    requires key !in EnTable
    ensures GetTranslation(context, key) == key
  {
    SameKeys();
  }

  /** A missing context language reads as the default language. */
  lemma MissingLanguageIsDefault(key: string)
    ensures GetTranslation(Provided(None), key) == GetTranslation(Provided(Some(DefaultLanguage)), key)
  {
  }

  /** The exception path answers as the default language would: the
      chosen language is never consulted there. */
  lemma HookFailureUsesDefault(key: string)
    ensures GetTranslation(HookThrew, key) == GetTranslation(Provided(Some(DefaultLanguage)), key)
  {
  }

  /** The language menu lists each language exactly once. */
  lemma LanguagesListsEach()
    ensures |Languages| == 2 && Languages[0].value != Languages[1].value
    ensures (set o | o in Languages :: o.value) == {Zh, En}
  {
  }
}
