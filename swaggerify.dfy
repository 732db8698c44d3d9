/** The top of `swaggerify`: the Swagger document built from the paths
    table, the caller's keyword overrides and the calling module's
    documentation and metadata globals. */
module Swaggerify {
  import opened Wrappers
  import opened Json
  import opened Docstring
  import opened Operations
  import opened Paths

  /** What `swaggerify` reads from the calling module: its cleaned docstring
      lines (`None` when it has no docstring) and the `__version__`,
      `__license__`, `__author__`, `__maintainer__` and `__email__` globals. */
  datatype ModuleInfo = ModuleInfo(
    doc: Option<seq<string>>,
    version: Option<Json>,
    license: Option<Json>,
    author: Option<Json>,
    maintainer: Option<Json>,
    email: Option<Json>)

  /** The version used when nothing else supplies one. */
  const DefaultVersion: Json := JStr("1.0.0")

  /** Raised by the final `info.update(...)` when the `info` keyword
      argument is not a mapping. */
  datatype BuildError = InfoNotMapping(info: Json)

  /** The contact block: `name` from the maintainer, else from the author,
      and `email` when the module has one. */
  function ContactOf(m: ModuleInfo): (r: Object)
    ensures r.Keys == (if m.author.Some? || m.maintainer.Some? then {"name"} else {})
                    + (if m.email.Some? then {"email"} else {})
    ensures m.maintainer.Some? ==> r["name"] == m.maintainer.value
    ensures m.maintainer.None? && m.author.Some? ==> r["name"] == m.author.value
    ensures m.email.Some? ==> r["email"] == m.email.value
  {
    var byAuthor: Object := if m.author.Some? then map["name" := m.author.value] else map[];
    var named := if m.maintainer.Some? then byAuthor["name" := m.maintainer.value] else byAuthor;
    if m.email.Some? then named["email" := m.email.value] else named
  }

  /** The info defaults after the module has been read: title and
      description from its docstring, then version, license and contact
      when the module defines them. Without a docstring the read fails at
      once and only the default version remains. */
  function ModuleDefaults(m: ModuleInfo): Object
  {
    if m.doc.None? then map["version" := DefaultVersion]
    else
      var parts := SplitLines(m.doc.value);
      var documented := map[
        "version" := DefaultVersion,
        "title" := JStr(Join(parts.title)),
        "description" := JStr(Join(parts.description))];
      var versioned := if m.version.Some? then documented["version" := m.version.value] else documented;
      var licensed := if m.license.Some? then versioned["license" := JObj(map["name" := m.license.value])] else versioned;
      if ContactOf(m) != map[] then licensed["contact" := JObj(ContactOf(m))] else licensed
  }

  /** The info block: defaults (read from the module when asked to), then
      the caller's `info` override merged over them. */
  function InfoBlock(parseModuleInfo: bool, m: ModuleInfo, infoOverride: Object): Object
  {
    Update(if parseModuleInfo then ModuleDefaults(m) else map["version" := DefaultVersion], infoOverride)
  }

  /** The paths table as a JSON object. */
  function PathsJson(paths: PathsTable): Json
  {
    JObj(map p | p in paths :: JObj(map k | k in paths[p] :: JObj(paths[p][k])))
  }

  /** The `info` keyword argument, `{}` when it is absent. */
  function InfoArgument(kwargs: Object): Json
  {
    if "info" in kwargs then kwargs["info"] else JObj(map[])
  }

  /** The whole document: fixed top-level defaults, the keyword arguments
      other than `info` merged over them, and the info block set last. */
  function Descriptor(paths: PathsTable, parseModuleInfo: bool, m: ModuleInfo, kwargs: Object): Result<Object, BuildError>
  {
    var info := InfoArgument(kwargs);
    if !info.JObj? then Failure(InfoNotMapping(info))
    else
      var top := map["swagger" := JStr("2.0"), "schemes" := JArr([JStr("http")]), "paths" := PathsJson(paths)];
      var config := Update(top, kwargs - {"info"});
      Success(config["info" := JObj(InfoBlock(parseModuleInfo, m, info.fields))])
  }

  /** The info defaults and the `try` block of `swaggerify`: the default
      version, extended from the module's docstring and globals; without a
      docstring, parsing it raises at once and only the default is left. */
  method ReadModule(m: ModuleInfo) returns (info: Object)
    ensures info == ModuleDefaults(m)
  {
    info := map["version" := DefaultVersion];
    if m.doc.None? {
      return;
    }
    var title, description := ParseDocstring(m.doc.value);
    info := Update(info, map["title" := JStr(title), "description" := JStr(description)]);
    assert info == map["version" := DefaultVersion, "title" := JStr(title), "description" := JStr(description)];
    if m.version.Some? {
      info := info["version" := m.version.value];
    }
    if m.license.Some? {
      info := info["license" := JObj(map["name" := m.license.value])];
    }
    var contact: Object := map[];
    if m.author.Some? {
      contact := contact["name" := m.author.value];
    }
    if m.maintainer.Some? {
      contact := contact["name" := m.maintainer.value];
    }
    if m.email.Some? {
      contact := contact["email" := m.email.value];
    }
    assert contact == ContactOf(m);
    if contact != map[] {
      info := info["contact" := JObj(contact)];
    }
  }

  /** `swaggerify` without the server plumbing: builds the paths table,
      then the document, updating the configuration dictionaries in place
      in the order the source does. */
  method Swaggerify(routes: seq<Route>, parseModuleInfo: bool, m: ModuleInfo, kwargs: Object)
    returns (result: Result<Object, BuildError>)
    ensures result == Descriptor(PathsOf(routes), parseModuleInfo, m, kwargs)
  {
    var paths := BuildPaths(routes);

    var infoArgument := JObj(map[]);
    var rest := kwargs;
    if "info" in kwargs {
      infoArgument := kwargs["info"];
      rest := kwargs - {"info"};
    }
    assert rest == kwargs - {"info"};

    var config: Object := map["swagger" := JStr("2.0"), "schemes" := JArr([JStr("http")]), "paths" := PathsJson(paths)];
    config := Update(config, rest);

    var info: Object := map["version" := DefaultVersion];
    if parseModuleInfo {
      info := ReadModule(m);
    }

    if !infoArgument.JObj? {
      return Failure(InfoNotMapping(infoArgument));
    }
    config := config["info" := JObj(Update(info, infoArgument.fields))];
    result := Success(config);
  }

  /** What reading the module contributes: nothing but the default version
      without a docstring; otherwise title and description from the
      docstring, the module's version if it has one, `license` as
      `{name: __license__}` exactly when it has a license, `contact`
      exactly when a name or an email was found, and no other key. */
  lemma ModuleDefaultsShape(m: ModuleInfo)
    ensures m.doc.None? ==> ModuleDefaults(m) == map["version" := DefaultVersion]
    ensures m.doc.Some? ==>
      ModuleDefaults(m).Keys
        == {"version", "title", "description"}
           + (if m.license.Some? then {"license"} else {})
           + (if m.author.Some? || m.maintainer.Some? || m.email.Some? then {"contact"} else {})
    ensures "version" in ModuleDefaults(m)
    ensures ModuleDefaults(m)["version"] == if m.doc.Some? && m.version.Some? then m.version.value else DefaultVersion
    ensures m.doc.Some? ==>
      && ModuleDefaults(m)["title"] == JStr(Join(SplitLines(m.doc.value).title))
      && ModuleDefaults(m)["description"] == JStr(Join(SplitLines(m.doc.value).description))
    ensures "license" in ModuleDefaults(m) <==> m.doc.Some? && m.license.Some?
    ensures m.doc.Some? && m.license.Some? ==> ModuleDefaults(m)["license"] == JObj(map["name" := m.license.value])
    ensures "contact" in ModuleDefaults(m) <==> m.doc.Some? && (m.author.Some? || m.maintainer.Some? || m.email.Some?)
    ensures "contact" in ModuleDefaults(m) ==> ModuleDefaults(m)["contact"] == JObj(ContactOf(m))
  {
    if m.doc.Some? && (m.author.Some? || m.maintainer.Some? || m.email.Some?) {
      assert ContactOf(m).Keys != {};
    }
  }

  /** The precedence of the info block: `version` is "1.0.0", replaced by
      the module's version when the module is read and has a docstring and
      a version, replaced in turn by the caller's `info.version`; every key
      of the caller's `info` appears verbatim. */
  lemma InfoPrecedence(parseModuleInfo: bool, m: ModuleInfo, infoOverride: Object)
    ensures "version" in InfoBlock(parseModuleInfo, m, infoOverride)
    ensures InfoBlock(parseModuleInfo, m, infoOverride)["version"] ==
      (if "version" in infoOverride then infoOverride["version"]
       else if parseModuleInfo && m.doc.Some? && m.version.Some? then m.version.value
       else DefaultVersion)
    ensures forall k :: k in infoOverride ==>
      k in InfoBlock(parseModuleInfo, m, infoOverride) && InfoBlock(parseModuleInfo, m, infoOverride)[k] == infoOverride[k]
    ensures !parseModuleInfo ==> InfoBlock(parseModuleInfo, m, infoOverride).Keys == {"version"} + infoOverride.Keys
    ensures parseModuleInfo ==> InfoBlock(parseModuleInfo, m, infoOverride).Keys == ModuleDefaults(m).Keys + infoOverride.Keys
    ensures parseModuleInfo ==> forall k :: k in ModuleDefaults(m) && k !in infoOverride ==>
      InfoBlock(parseModuleInfo, m, infoOverride)[k] == ModuleDefaults(m)[k]
  {
    ModuleDefaultsShape(m);
  }

  /** The document: it fails exactly when `info` is given and is not a
      mapping; otherwise it holds `swagger`, `schemes`, `paths` and `info`
      plus every keyword argument, each keyword argument other than `info`
      verbatim, the defaults where no keyword argument replaces them, and
      `info` always the info block, whatever the other keyword arguments say. */
  lemma DescriptorShape(paths: PathsTable, parseModuleInfo: bool, m: ModuleInfo, kwargs: Object)
    ensures Descriptor(paths, parseModuleInfo, m, kwargs).Success? <==> ("info" !in kwargs || kwargs["info"].JObj?)
    ensures var r := Descriptor(paths, parseModuleInfo, m, kwargs);
      r.Success? ==>
        && r.value.Keys == {"swagger", "schemes", "paths", "info"} + kwargs.Keys
        && (forall k :: k in kwargs && k != "info" ==> r.value[k] == kwargs[k])
        && ("swagger" !in kwargs ==> r.value["swagger"] == JStr("2.0"))
        && ("schemes" !in kwargs ==> r.value["schemes"] == JArr([JStr("http")]))
        && ("paths" !in kwargs ==> r.value["paths"] == PathsJson(paths))
        && r.value["info"] == JObj(InfoBlock(parseModuleInfo, m, if "info" in kwargs then kwargs["info"].fields else map[]))
  {
  }
}
