/** Icons named in the settings: `LucideIcons[name] || Fallback`, a lookup
    of the name among the icon library's exports with a fixed fallback. */
module Icons {
  import opened Js

  datatype Icon = Library(name: string) | FileText | BookOpen

  /** `LucideIcons[name] || fallback`, where `icons` are the names the
      library exports. The property key is the name as a string, so a
      missing name is looked up as `"undefined"`. */
  function IconFor(icons: set<string>, name: Json, fallback: Icon): (i: Icon)
    ensures name.Str? && name.s in icons ==> i == Library(name.s)
    ensures name.Str? && name.s !in icons ==> i == fallback
    ensures i == fallback || (i.Library? && i.name in icons)
  {
    var key := JsString(name);
    if key in icons then Library(key) else fallback
  }
}
