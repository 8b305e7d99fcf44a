/** Changed-method detection over Java sources (api/services/ast_parser.py).
    The Java parser itself is an abstract function from source text to a
    syntax tree or a failure; what is modelled is how the tree becomes
    method records and how two versions' records are compared. */
module JavaMethods {
  import opened Text
  import opened Results
  import opened Seqs

  // ---------------------------------------------------------------------
  // The syntax tree the parser hands over

  /** A member of a type declaration: a method (its return type is None for
      `void`), a constructor, or anything else (fields, nested types,
      initialisers). Types are given by name. */
  datatype Member =
    | MethodDecl(name: string, modifiers: seq<string>, returnType: Option<string>, parameterTypes: seq<string>)
    | ConstructorDecl(name: string, modifiers: seq<string>, parameterTypes: seq<string>)
    | OtherMember

  /** A class, interface or enum declaration. */
  datatype TypeDecl = TypeDecl(name: Option<string>, body: seq<Member>)

  datatype CompilationUnit = CompilationUnit(package: Option<string>, types: seq<TypeDecl>)

  /** What the parser does with a source text: a tree, a syntax error, or
      some other exception, each failure with its message. */
  datatype ParseOutcome =
    | Parsed(unit: CompilationUnit)
    | SyntaxError(syntaxMessage: string)
    | Crashed(crashMessage: string)

  // ---------------------------------------------------------------------
  // Records

  datatype MethodInfo = MethodInfo(
    packageName: string, className: string, methodName: string,
    modifiers: seq<string>, returnType: Option<string>, parameters: seq<string>)

  datatype ClassInfo = ClassInfo(packageName: string, className: string, methods: seq<MethodInfo>)

  datatype ParseResult = ParseResult(classes: seq<ClassInfo>, errors: seq<string>)

  /** "package.Class.method" */
  function MethodQualifiedName(m: MethodInfo): string {
    DottedName(m.packageName, m.className, m.methodName)
  }

  /** The qualified name tells methods of different classes or names apart,
      class and method names being dot-free Java identifiers. */
  lemma QualifiedNameDetermines(a: MethodInfo, b: MethodInfo)
    requires '.' !in a.className && '.' !in a.methodName && '.' !in b.className && '.' !in b.methodName
    ensures MethodQualifiedName(a) == MethodQualifiedName(b) <==>
      a.packageName == b.packageName && a.className == b.className && a.methodName == b.methodName
  {
    if MethodQualifiedName(a) == MethodQualifiedName(b) {
      DottedNameInjective(a.packageName, a.className, a.methodName, b.packageName, b.className, b.methodName);
    }
  }

  /** "package.Class" */
  function ClassQualifiedName(c: ClassInfo): (r: string)
    ensures |r| == |c.packageName| + 1 + |c.className|
    ensures r[..|c.packageName|] == c.packageName && r[|c.packageName|] == '.'
    ensures r[|c.packageName| + 1..] == c.className
  {
    c.packageName + "." + c.className
  }

  // ---------------------------------------------------------------------
  // parse_java_code

  const EmptySource := "源代码为空"
  const SyntaxErrorPrefix := "Java语法错误: "
  const CrashPrefix := "解析异常: "

  function PackageOf(unit: CompilationUnit): string {
    match unit.package
    case Some(p) => p
    case None => ""
  }

  predicate IsCallable(m: Member) {
    m.MethodDecl? || m.ConstructorDecl?
  }

  /** The record of a method or constructor; constructors have no return
      type. */
  function InfoOf(pkg: string, cls: string, m: Member): MethodInfo {
    match m
    case MethodDecl(name, modifiers, returnType, params) => MethodInfo(pkg, cls, name, modifiers, returnType, params)
    case ConstructorDecl(name, modifiers, params) => MethodInfo(pkg, cls, name, modifiers, None, params)
    case OtherMember => MethodInfo(pkg, cls, "", [], None, [])
  }

  function InfoIn(pkg: string, cls: string): Member -> MethodInfo {
    (m: Member) => InfoOf(pkg, cls, m)
  }

  /** The records of a type's methods and constructors, in declaration
      order. */
  function TypeMethods(pkg: string, cls: string, body: seq<Member>): seq<MethodInfo> {
    Select(body, IsCallable, InfoIn(pkg, cls))
  }

  predicate IsNamed(t: TypeDecl) {
    t.name.Some?
  }

  function NameOf(t: TypeDecl): string {
    match t.name
    case Some(n) => n
    case None => ""
  }

  function ClassOf(pkg: string, t: TypeDecl): ClassInfo {
    ClassInfo(pkg, NameOf(t), TypeMethods(pkg, NameOf(t), t.body))
  }

  function ClassIn(pkg: string): TypeDecl -> ClassInfo {
    (t: TypeDecl) => ClassOf(pkg, t)
  }

  /** One record per named type declaration, in order. */
  function ClassesOf(unit: CompilationUnit): seq<ClassInfo> {
    Select(unit.types, IsNamed, ClassIn(PackageOf(unit)))
  }

  /** What parse_java_code returns for a source text. */
  function ParseOf(source: string, parse: string -> ParseOutcome): ParseResult {
    if Blank(source) then ParseResult([], [EmptySource])
    else match parse(source)
      case SyntaxError(message) => ParseResult([], [SyntaxErrorPrefix + message])
      case Crashed(message) => ParseResult([], [CrashPrefix + message])
      case Parsed(unit) => ParseResult(ClassesOf(unit), [])
  }

  method ParseJavaCode(source: string, parse: string -> ParseOutcome) returns (r: ParseResult)
    ensures r == ParseOf(source, parse)
  {
    if source == [] || Blank(source) {
      return ParseResult([], [EmptySource]);
    }
    var outcome := parse(source);
    match outcome {
      case SyntaxError(message) =>
        return ParseResult([], [SyntaxErrorPrefix + message]);
      case Crashed(message) =>
        return ParseResult([], [CrashPrefix + message]);
      case Parsed(unit) =>
        var packageName := "";
        if unit.package.Some? {
          packageName := unit.package.value;
        }
        var classes: seq<ClassInfo> := [];
        for i := 0 to |unit.types|
          invariant classes == Select(unit.types[..i], IsNamed, ClassIn(packageName))
        {
          SelectStep(unit.types, i, IsNamed, ClassIn(packageName));
          var typeDecl := unit.types[i];
          if typeDecl.name.Some? {
            var className := typeDecl.name.value;
            var methods := CollectMethods(packageName, className, typeDecl.body);
            classes := classes + [ClassInfo(packageName, className, methods)];
          }
        }
        assert unit.types[..|unit.types|] == unit.types;
        return ParseResult(classes, []);
    }
  }

  /** The loop over one type's members. */
  method CollectMethods(pkg: string, cls: string, body: seq<Member>) returns (methods: seq<MethodInfo>)
    ensures methods == TypeMethods(pkg, cls, body)
  {
    methods := [];
    for i := 0 to |body|
      invariant methods == Select(body[..i], IsCallable, InfoIn(pkg, cls))
    {
      SelectStep(body, i, IsCallable, InfoIn(pkg, cls));
      match body[i] {
        case MethodDecl(name, modifiers, returnType, params) =>
          methods := methods + [MethodInfo(pkg, cls, name, modifiers, returnType, params)];
        case ConstructorDecl(name, modifiers, params) =>
          methods := methods + [MethodInfo(pkg, cls, name, modifiers, None, params)];
        case OtherMember =>
      }
    }
    assert body[..|body|] == body;
  }

  /** Empty or whitespace-only source gives no classes and the single error
      "源代码为空", whatever the parser would do. */
  lemma EmptySourceGuard(source: string, parse: string -> ParseOutcome)
    ensures ParseOf(source, parse).classes == [] && ParseOf(source, parse).errors == [EmptySource]
      <==> Blank(source)
  {
  }

  /** A result has classes only when it has no error, and an error is
      always alone. */
  lemma ErrorsExcludeClasses(source: string, parse: string -> ParseOutcome)
    ensures ParseOf(source, parse).errors == [] <==> !Blank(source) && parse(source).Parsed?
    ensures ParseOf(source, parse).errors != [] ==>
      ParseOf(source, parse).classes == [] && |ParseOf(source, parse).errors| == 1
  {
  }

  /** Every record of a type names the unit's package and the type, and is
      the record of one of the type's methods or constructors; a
      constructor's record has no return type. */
  lemma TypeMethodsFromMembers(pkg: string, cls: string, body: seq<Member>)
    ensures forall m :: m in TypeMethods(pkg, cls, body) <==>
      exists i :: 0 <= i < |body| && IsCallable(body[i]) && InfoOf(pkg, cls, body[i]) == m
    ensures forall m :: m in TypeMethods(pkg, cls, body) ==>
      m.packageName == pkg && m.className == cls
    ensures forall i :: 0 <= i < |body| && body[i].ConstructorDecl? ==>
      (InfoOf(pkg, cls, body[i]) in TypeMethods(pkg, cls, body) &&
       InfoOf(pkg, cls, body[i]).returnType == None)
  {
    SelectMembers(body, IsCallable, InfoIn(pkg, cls));
  }

  /** Every class record carries the unit's package and the name of a
      declared type, and only methods of that class. */
  lemma ClassesFromTypes(unit: CompilationUnit)
    ensures forall c :: c in ClassesOf(unit) ==>
      && c.packageName == PackageOf(unit)
      && (exists i :: 0 <= i < |unit.types| && unit.types[i].name == Some(c.className))
      && (forall m :: m in c.methods ==> m.packageName == PackageOf(unit) && m.className == c.className)
    ensures |ClassesOf(unit)| == |unit.types| <==> forall i :: 0 <= i < |unit.types| ==> IsNamed(unit.types[i])
  {
    var pkg := PackageOf(unit);
    SelectMembers(unit.types, IsNamed, ClassIn(pkg));
    forall c | c in ClassesOf(unit)
      ensures forall m :: m in c.methods ==> m.packageName == pkg && m.className == c.className
    {
      var i :| 0 <= i < |unit.types| && IsNamed(unit.types[i]) && ClassOf(pkg, unit.types[i]) == c;
      TypeMethodsFromMembers(pkg, NameOf(unit.types[i]), unit.types[i].body);
    }
    SelectCountAll(unit.types, IsNamed, ClassIn(pkg));
  }

  /** Exactly when every element is accepted are all of them selected. */
  lemma {:induction false} SelectCountAll<T, U>(xs: seq<T>, keep: T -> bool, f: T -> U)
    ensures |Select(xs, keep, f)| == |xs| <==> forall i :: 0 <= i < |xs| ==> keep(xs[i])
    decreases |xs|
  {
    if xs != [] {
      var init := xs[..|xs| - 1];
      SelectCountAll(init, keep, f);
      forall i | 0 <= i < |init| ensures init[i] == xs[i] { }
    }
  }

  // ---------------------------------------------------------------------
  // extract_methods_from_code

  /** The classes' method lists, one after the other. */
  function Flatten(classes: seq<ClassInfo>): seq<MethodInfo>
    decreases |classes|
  {
    if classes == [] then [] else Flatten(classes[..|classes| - 1]) + classes[|classes| - 1].methods
  }

  function MethodsOf(source: string, parse: string -> ParseOutcome): seq<MethodInfo> {
    Flatten(ParseOf(source, parse).classes)
  }

  method ExtractMethodsFromCode(source: string, parse: string -> ParseOutcome) returns (methods: seq<MethodInfo>)
    ensures methods == MethodsOf(source, parse)
  {
    var result := ParseJavaCode(source, parse);
    methods := [];
    for i := 0 to |result.classes|
      invariant methods == Flatten(result.classes[..i])
    {
      assert result.classes[..i + 1][..i] == result.classes[..i];
      methods := methods + result.classes[i].methods;
    }
    assert result.classes[..|result.classes|] == result.classes;
  }

  /** A method is extracted iff it belongs to one of the classes. */
  lemma {:induction false} FlattenMembers(classes: seq<ClassInfo>)
    ensures forall m :: m in Flatten(classes) <==> exists i :: 0 <= i < |classes| && m in classes[i].methods
    decreases |classes|
  {
    if classes != [] {
      var init := classes[..|classes| - 1];
      FlattenMembers(init);
      forall i | 0 <= i < |init| ensures init[i] == classes[i] { }
    }
  }

  /** When parsing reports an error nothing is extracted; otherwise every
      extracted method carries the unit's package and the name of one of
      its declared types. */
  lemma ExtractedMethodsShape(source: string, parse: string -> ParseOutcome)
    ensures ParseOf(source, parse).errors != [] ==> MethodsOf(source, parse) == []
    ensures !Blank(source) && parse(source).Parsed? ==>
      forall m :: m in MethodsOf(source, parse) ==>
        && m.packageName == PackageOf(parse(source).unit)
        && exists i :: 0 <= i < |parse(source).unit.types| && parse(source).unit.types[i].name == Some(m.className)
  {
    var r := ParseOf(source, parse);
    FlattenMembers(r.classes);
    if !Blank(source) && parse(source).Parsed? {
      ClassesFromTypes(parse(source).unit);
    }
  }

  // ---------------------------------------------------------------------
  // extract_changed_methods

  /** "package.Class.method(T1,T2,...)" */
  function Signature(m: MethodInfo): string {
    MethodQualifiedName(m) + "(" + Join(m.parameters, ",") + ")"
  }

  function Signatures(methods: seq<MethodInfo>): set<string> {
    set m | m in methods :: Signature(m)
  }

  function IsNew(history: set<string>): MethodInfo -> bool {
    (m: MethodInfo) => Signature(m) !in history
  }

  function Keep(m: MethodInfo): MethodInfo {
    m
  }

  /** The current methods whose signature no history method has, in
      current order. */
  function ChangedAmong(current: seq<MethodInfo>, history: seq<MethodInfo>): seq<MethodInfo> {
    Select(current, IsNew(Signatures(history)), Keep)
  }

  method ExtractChangedMethods(currentCode: string, historyCode: string, parse: string -> ParseOutcome)
    returns (changed: seq<MethodInfo>)
    ensures changed == ChangedAmong(MethodsOf(currentCode, parse), MethodsOf(historyCode, parse))
  {
    var currentMethods := ExtractMethodsFromCode(currentCode, parse);
    var historyMethods := ExtractMethodsFromCode(historyCode, parse);
    var historySignatures := HistorySignatures(historyMethods);
    changed := [];
    for i := 0 to |currentMethods|
      invariant changed == Select(currentMethods[..i], IsNew(historySignatures), Keep)
    {
      SelectStep(currentMethods, i, IsNew(historySignatures), Keep);
      var m := currentMethods[i];
      var sig := m.packageName + "." + m.className + "." + m.methodName + "(" + Join(m.parameters, ",") + ")";
      if sig !in historySignatures {
        changed := changed + [m];
      }
    }
    assert currentMethods[..|currentMethods|] == currentMethods;
  }

  /** The loop that collects the history signatures. */
  method HistorySignatures(methods: seq<MethodInfo>) returns (sigs: set<string>)
    ensures sigs == Signatures(methods)
  {
    sigs := {};
    for i := 0 to |methods|
      invariant sigs == Signatures(methods[..i])
    {
      assert methods[..i + 1] == methods[..i] + [methods[i]];
      sigs := sigs + {Signature(methods[i])};
    }
    assert methods[..|methods|] == methods;
  }

  /** A current method is reported iff no history method has its
      signature. */
  lemma ChangedExact(current: seq<MethodInfo>, history: seq<MethodInfo>)
    ensures forall m :: m in ChangedAmong(current, history) <==>
      m in current && forall h :: h in history ==> Signature(h) != Signature(m)
  {
    SelectMembers(current, IsNew(Signatures(history)), Keep);
  }

  /** The reported methods are the current ones with some left out, in
      their original order. */
  lemma ChangedInOrder(current: seq<MethodInfo>, history: seq<MethodInfo>)
    ensures SubsequenceOf(ChangedAmong(current, history), current)
  {
    SelectSubsequence(current, IsNew(Signatures(history)), Keep);
    assert MapSeq(current, Keep) == current;
  }

  /** Comparing a version with itself reports nothing. */
  lemma UnchangedReportsNothing(methods: seq<MethodInfo>)
    ensures ChangedAmong(methods, methods) == []
  {
    SelectEmpty(methods, IsNew(Signatures(methods)), Keep);
  }

  /** Against an empty history every current method is reported. */
  lemma NoHistoryReportsAll(current: seq<MethodInfo>)
    ensures ChangedAmong(current, []) == current
  {
    SelectAll(current, IsNew(Signatures([])), Keep);
    assert MapSeq(current, Keep) == current;
  }

  /** Overloads are told apart: two methods of one class with the same name
      but different parameter type lists have different signatures (type
      names are non-empty and contain no comma). */
  lemma OverloadsDistinct(a: MethodInfo, b: MethodInfo)
    requires a.packageName == b.packageName && a.className == b.className && a.methodName == b.methodName
    requires forall i :: 0 <= i < |a.parameters| ==> a.parameters[i] != [] && ',' !in a.parameters[i]
    requires forall i :: 0 <= i < |b.parameters| ==> b.parameters[i] != [] && ',' !in b.parameters[i]
    requires a.parameters != b.parameters
    ensures Signature(a) != Signature(b)
  {
    var prefix := MethodQualifiedName(a) + "(";
    var ja, jb := Join(a.parameters, ","), Join(b.parameters, ",");
    if Signature(a) == Signature(b) {
      assert Signature(a) == prefix + ja + ")";
      assert Signature(b) == prefix + jb + ")";
      assert ja == Signature(a)[|prefix|..|Signature(a)| - 1];
      assert jb == Signature(b)[|prefix|..|Signature(b)| - 1];
      JoinInjective(a.parameters, b.parameters, ',');
    }
  }
}
