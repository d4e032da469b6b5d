/** The package's overrides of the marshalling library's annotation
    encoders: each adds the annotation's own value to the library's encoding,
    and importing its module replaces the library's entry in the global
    encoder table. */
module Encoders {
  import opened Values

  /** The annotation classes the package registers an encoder for. */
  datatype AnnotationClass =
    | BooleanAnnotation | CommentAnnotation | DoubleAnnotation | LongAnnotation | MapAnnotation
    | TagAnnotation | TermAnnotation | TextAnnotation | TimestampAnnotation | XmlAnnotation

  /** One entry of a map annotation. */
  datatype NamedValue = NamedValue(name: string, value: string)

  /** An annotation with the values the encoders read; None where the
      attribute is None. */
  datatype Annotation = Annotation(
    cls: AnnotationClass,
    boolValue: Option<bool>,
    longValue: Option<int>,
    doubleValue: Option<Opaque>,
    textValue: Option<string>,
    termValue: Option<string>,
    timeValue: Option<Opaque>,
    mapValue: Option<seq<NamedValue>>)

  /** A layer of the library's encoder hierarchy: the encoder the library
      registers for a class, or that encoder's parent class, which encodes
      only what all annotations share. */
  datatype LibraryEncoder = KindEncoder(cls: AnnotationClass) | ParentEncoder(cls: AnnotationClass)

  /** The library's encoders are not part of this model: `lib(layer, a)` is
      what `layer` makes of `a`. */
  type Library = (LibraryEncoder, Annotation) -> Doc

  function MapOption<T>(o: Option<T>, f: T -> Json): Option<Json>
  {
    if o.Some? then Some(f(o.value)) else None
  }

  /** `set_if_not_none`: sets `key` to the value when there is one. */
  function SetIfNotNone(v: Doc, key: string, value: Option<Json>): (r: Doc)
    ensures Extends(v, r, key, value)
  {
    if value.Some? then v[key := value.value] else v
  }

  /** `r` is `base` with `key` set to `value` when there is one, and nothing
      else changed. */
  ghost predicate Extends(base: Doc, r: Doc, key: string, value: Option<Json>)
  {
    && r.Keys == base.Keys + (if value.Some? then {key} else {})
    && (forall k :: k in r && k != key ==> r[k] == base[k])
    && (value.Some? ==> r[key] == value.value)
    && (value.None? ==> r == base)
  }

  // ---------------------------------------------------------------------------
  // The overrides

  /** Boolean: the parent layer's encoding plus `BoolValue`. */
  function EncodeBoolean(lib: Library, a: Annotation): (r: Doc)
    ensures Extends(lib(ParentEncoder(BooleanAnnotation), a), r, "BoolValue", MapOption(a.boolValue, b => JBool(b)))
  {
    SetIfNotNone(lib(ParentEncoder(BooleanAnnotation), a), "BoolValue", MapOption(a.boolValue, b => JBool(b)))
  }

  /** Long: the parent layer's encoding plus `LongValue`. */
  function EncodeLong(lib: Library, a: Annotation): (r: Doc)
    ensures Extends(lib(ParentEncoder(LongAnnotation), a), r, "LongValue", MapOption(a.longValue, n => JInt(n)))
  {
    SetIfNotNone(lib(ParentEncoder(LongAnnotation), a), "LongValue", MapOption(a.longValue, n => JInt(n)))
  }

  /** Double: the library's own double encoding plus `DoubleValue`. */
  function EncodeDouble(lib: Library, a: Annotation): (r: Doc)
    ensures Extends(lib(KindEncoder(DoubleAnnotation), a), r, "DoubleValue", MapOption(a.doubleValue, d => JOpaque(d)))
  {
    SetIfNotNone(lib(KindEncoder(DoubleAnnotation), a), "DoubleValue", MapOption(a.doubleValue, d => JOpaque(d)))
  }

  /** Text: the parent layer's encoding plus `TextValue`. */
  function EncodeText(lib: Library, a: Annotation): (r: Doc)
    ensures Extends(lib(ParentEncoder(TextAnnotation), a), r, "TextValue", MapOption(a.textValue, s => JStr(s)))
  {
    SetIfNotNone(lib(ParentEncoder(TextAnnotation), a), "TextValue", MapOption(a.textValue, s => JStr(s)))
  }

  /** Comment: delegates to the text override, so it too is the text
      parent layer's encoding plus `TextValue`. */
  function EncodeComment(lib: Library, a: Annotation): (r: Doc)
    ensures Extends(lib(ParentEncoder(TextAnnotation), a), r, "TextValue", MapOption(a.textValue, s => JStr(s)))
  {
    EncodeText(lib, a)
  }

  /** Tag: delegates to the text override. */
  function EncodeTag(lib: Library, a: Annotation): (r: Doc)
    ensures Extends(lib(ParentEncoder(TextAnnotation), a), r, "TextValue", MapOption(a.textValue, s => JStr(s)))
  {
    EncodeText(lib, a)
  }

  /** XML: skips the text override and returns the library's own text
      encoding, so this package adds no `TextValue`. */
  function EncodeXml(lib: Library, a: Annotation): (r: Doc)
    ensures Extends(lib(KindEncoder(TextAnnotation), a), r, "TextValue", None)
  {
    lib(KindEncoder(TextAnnotation), a)
  }

  /** Term (its class is named after tags): the parent layer's encoding plus
      `TermValue`. */
  function EncodeTerm(lib: Library, a: Annotation): (r: Doc)
    ensures Extends(lib(ParentEncoder(TermAnnotation), a), r, "TermValue", MapOption(a.termValue, s => JStr(s)))
  {
    SetIfNotNone(lib(ParentEncoder(TermAnnotation), a), "TermValue", MapOption(a.termValue, s => JStr(s)))
  }

  /** Timestamp: the library's own timestamp encoding plus the key `Value`. */
  function EncodeTimestamp(lib: Library, a: Annotation): (r: Doc)
    ensures Extends(lib(KindEncoder(TimestampAnnotation), a), r, "Value", MapOption(a.timeValue, t => JOpaque(t)))
  {
    SetIfNotNone(lib(KindEncoder(TimestampAnnotation), a), "Value", MapOption(a.timeValue, t => JOpaque(t)))
  }

  /** The `[name, value]` pairs of a map annotation, in order. */
  function Pairs(nvs: seq<NamedValue>): (r: seq<Json>)
    ensures |r| == |nvs|
    ensures forall i :: 0 <= i < |nvs| ==> r[i] == JArray([JStr(nvs[i].name), JStr(nvs[i].value)])
  {
    seq(|nvs|, i requires 0 <= i < |nvs| => JArray([JStr(nvs[i].name), JStr(nvs[i].value)]))
  }

  /** Reads the entries back from their pairs; None for anything else. */
  function Unpairs(items: seq<Json>): Option<seq<NamedValue>>
  {
    if items == [] then Some([])
    else
      var p := items[0];
      if p.JArray? && |p.items| == 2 && p.items[0].JStr? && p.items[1].JStr? then
        match Unpairs(items[1..])
        case Some(rest) => Some([NamedValue(p.items[0].s, p.items[1].s)] + rest)
        case None => None
      else None
  }

  /** The pairs keep every entry, in order. */
  lemma {:induction false} UnpairsPairs(nvs: seq<NamedValue>)
    ensures Unpairs(Pairs(nvs)) == Some(nvs)
  {
    if nvs != [] {
      UnpairsPairs(nvs[1..]);
      assert Pairs(nvs)[1..] == Pairs(nvs[1..]);
      assert [nvs[0]] + nvs[1..] == nvs;
    }
  }

  /** Map: no document at all when there is no map value; otherwise the
      parent layer's encoding plus `MapValue`, the list of pairs. */
  function EncodeMap(lib: Library, a: Annotation): (r: Option<Doc>)
    ensures r.None? <==> a.mapValue.None?
    ensures r.Some? ==> Extends(lib(ParentEncoder(MapAnnotation), a), r.value, "MapValue", Some(JArray(Pairs(a.mapValue.value))))
  {
    var v := lib(ParentEncoder(MapAnnotation), a);
    if a.mapValue.None? then None
    else Some(SetIfNotNone(v, "MapValue", Some(JArray(Pairs(a.mapValue.value)))))
  }

  /** The encoded map value reads back as the annotation's entries. */
  lemma MapValueRoundTrip(lib: Library, a: Annotation)
    requires a.mapValue.Some?
    ensures EncodeMap(lib, a).Some?
    ensures var v := EncodeMap(lib, a).value["MapValue"];
      v.JArray? && Unpairs(v.items) == a.mapValue
  {
    UnpairsPairs(a.mapValue.value);
  }

  // ---------------------------------------------------------------------------
  // The encoder table and the modules that write it

  /** The package's modules, one per override. */
  datatype EncoderModule =
    | BooleanModule | CommentModule | DoubleModule | LongModule | MapModule
    | TagModule | TermModule | TextModule | TimestampModule | XmlModule

  /** The class whose entry a module's body writes. */
  function ClassOf(m: EncoderModule): AnnotationClass
  {
    match m
    case BooleanModule => BooleanAnnotation
    case CommentModule => CommentAnnotation
    case DoubleModule => DoubleAnnotation
    case LongModule => LongAnnotation
    case MapModule => MapAnnotation
    case TagModule => TagAnnotation
    case TermModule => TermAnnotation
    case TextModule => TextAnnotation
    case TimestampModule => TimestampAnnotation
    case XmlModule => XmlAnnotation
  }

  function ModuleOf(c: AnnotationClass): (m: EncoderModule)
    ensures ClassOf(m) == c
  {
    match c
    case BooleanAnnotation => BooleanModule
    case CommentAnnotation => CommentModule
    case DoubleAnnotation => DoubleModule
    case LongAnnotation => LongModule
    case MapAnnotation => MapModule
    case TagAnnotation => TagModule
    case TermAnnotation => TermModule
    case TextAnnotation => TextModule
    case TimestampAnnotation => TimestampModule
    case XmlAnnotation => XmlModule
  }

  /** Each module writes the entry of a class of its own. */
  lemma ClassOfInjective(m: EncoderModule, n: EncoderModule)
    ensures ClassOf(m) == ClassOf(n) ==> m == n
    ensures ModuleOf(ClassOf(m)) == m
  {
  }

  /** The comment, tag and XML modules import the text module first. */
  predicate NeedsText(m: EncoderModule)
  {
    m == CommentModule || m == TagModule || m == XmlModule
  }

  /** An entry of the table: the library's encoder or the override of a module. */
  datatype Encoder = Library(cls: AnnotationClass) | Invariant(owner: EncoderModule)

  /** Encodes `a` with `e`; None is the map override's "no document". */
  function Apply(lib: Library, e: Encoder, a: Annotation): Option<Doc>
  {
    match e
    case Library(c) => Some(lib(KindEncoder(c), a))
    case Invariant(m) =>
      match m
      case BooleanModule => Some(EncodeBoolean(lib, a))
      case CommentModule => Some(EncodeComment(lib, a))
      case DoubleModule => Some(EncodeDouble(lib, a))
      case LongModule => Some(EncodeLong(lib, a))
      case MapModule => EncodeMap(lib, a)
      case TagModule => Some(EncodeTag(lib, a))
      case TermModule => Some(EncodeTerm(lib, a))
      case TextModule => Some(EncodeText(lib, a))
      case TimestampModule => Some(EncodeTimestamp(lib, a))
      case XmlModule => Some(EncodeXml(lib, a))
  }

  /** The table entry a class has once `ran` holds the modules whose bodies
      have run. */
  function EntryAfter(c: AnnotationClass, ran: seq<EncoderModule>): Encoder
  {
    if ModuleOf(c) in ran then Invariant(ModuleOf(c)) else Library(c)
  }

  /** The modules importing `m` runs, in order, when `ran` have already run:
      none if `m` has, otherwise the text module first where `m` needs it
      and it has not run, then `m`. */
  function NewlyRun(ran: seq<EncoderModule>, m: EncoderModule): seq<EncoderModule>
  {
    if m in ran then []
    else (if NeedsText(m) && TextModule !in ran then [TextModule] else []) + [m]
  }

  /** The order module bodies run in when the package is imported into a
      fresh interpreter. */
  const PackageRuns: seq<EncoderModule> :=
    [BooleanModule, TextModule, CommentModule, DoubleModule, LongModule, MapModule,
     TagModule, TermModule, TimestampModule, XmlModule]

  predicate Distinct(ran: seq<EncoderModule>)
  {
    forall i, j :: 0 <= i < j < |ran| ==> ran[i] != ran[j]
  }

  /** Every module that needs the text module ran after it. */
  predicate TextFirst(ran: seq<EncoderModule>)
  {
    forall i :: 0 <= i < |ran| && NeedsText(ran[i]) ==> TextModule in ran[..i]
  }

  /** `omero_marshal.ENCODERS`, restricted to the annotation classes, with the
      modules of the package whose bodies have run. */
  class EncoderRegistry {
    var table: map<AnnotationClass, Encoder>
    var ran: seq<EncoderModule>

    /** Each class maps to its override exactly when its module has run, each
        module ran once, and the text module ran before those that need it. */
    ghost predicate Valid()
      reads this
    {
      && (forall c :: c in table && table[c] == EntryAfter(c, ran))
      && Distinct(ran)
      && TextFirst(ran)
    }

    /** The library's table, before any module of the package runs. */
    constructor()
      ensures Valid() && ran == []
      ensures forall c :: table[c] == Library(c)
    {
      table := map c: AnnotationClass | true :: Library(c);
      ran := [];
    }

    /** Runs the body of `m`: writes the entry of its class. */
    method RunBody(m: EncoderModule)
      requires Valid() && m !in ran
      requires NeedsText(m) ==> TextModule in ran
      modifies this
      ensures Valid()
      ensures ran == old(ran) + [m]
      ensures table == old(table)[ClassOf(m) := Invariant(m)]
    {
      table := table[ClassOf(m) := Invariant(m)];
      ran := ran + [m];
      forall c ensures c in table && table[c] == EntryAfter(c, ran) {
        ClassOfInjective(m, ModuleOf(c));
      }
      assert ran[..|ran| - 1] == old(ran);
    }

    /** `import m`: runs nothing if the module already ran; otherwise runs
        the text module first when `m` imports it and it has not run, then
        the body of `m`. With `Valid`, the entries of the modules run are
        the overrides and every other entry is as it was. */
    method Import(m: EncoderModule)
      requires Valid()
      modifies this
      ensures Valid()
      ensures ran == old(ran) + NewlyRun(old(ran), m)
      ensures m in ran && forall n :: n in old(ran) ==> n in ran
    {
      if m !in ran {
        if NeedsText(m) && TextModule !in ran {
          RunBody(TextModule);
        }
        RunBody(m);
      }
    }

    /** A run of `import` statements, in order: each module has run afterwards. */
    method ImportEach(order: seq<EncoderModule>)
      requires Valid()
      modifies this
      ensures Valid()
      ensures forall k :: 0 <= k < |order| ==> order[k] in ran
    {
      for i := 0 to |order|
        invariant Valid()
        invariant forall k :: 0 <= k < i ==> order[k] in ran
      {
        Import(order[i]);
      }
    }

    /** Importing the package imports its modules in `__init__` order: every
        module has run, so every class maps to its override, and (by `Valid`)
        the text override was registered before comment, tag and XML. */
    method ImportPackage()
      requires Valid()
      modifies this
      ensures Valid()
      ensures forall c :: table[c] == Invariant(ModuleOf(c))
    {
      ImportEach(ImportOrder);
      TableAfterAll(table, ran);
    }
  }

  /** The modules whose bodies have run once `m` is imported after `ran`
      have, as `EncoderRegistry.Import` records them. */
  function ImportStep(ran: seq<EncoderModule>, m: EncoderModule): seq<EncoderModule>
  {
    ran + NewlyRun(ran, m)
  }

  /** The first three imports of the package's `__init__`, in a fresh interpreter. */
  lemma PackageStepsFirst()
    ensures ImportStep([], BooleanModule) == [BooleanModule]
    ensures ImportStep([BooleanModule], CommentModule) == [BooleanModule, TextModule, CommentModule]
    ensures ImportStep([BooleanModule, TextModule, CommentModule], DoubleModule) == [BooleanModule, TextModule, CommentModule, DoubleModule]
  {
  }

  /** The fourth to seventh imports of the package's `__init__`. */
  lemma PackageStepsMiddle()
    ensures ImportStep([BooleanModule, TextModule, CommentModule, DoubleModule], LongModule) == [BooleanModule, TextModule, CommentModule, DoubleModule, LongModule]
    ensures ImportStep([BooleanModule, TextModule, CommentModule, DoubleModule, LongModule], MapModule) == [BooleanModule, TextModule, CommentModule, DoubleModule, LongModule, MapModule]
    ensures ImportStep([BooleanModule, TextModule, CommentModule, DoubleModule, LongModule, MapModule], TagModule) == [BooleanModule, TextModule, CommentModule, DoubleModule, LongModule, MapModule, TagModule]
    ensures ImportStep([BooleanModule, TextModule, CommentModule, DoubleModule, LongModule, MapModule, TagModule], TermModule) == [BooleanModule, TextModule, CommentModule, DoubleModule, LongModule, MapModule, TagModule, TermModule]
  {
  }

  /** The last three imports of the package's `__init__`. */
  lemma PackageStepsLast()
    ensures ImportStep([BooleanModule, TextModule, CommentModule, DoubleModule, LongModule, MapModule, TagModule, TermModule], TextModule) == [BooleanModule, TextModule, CommentModule, DoubleModule, LongModule, MapModule, TagModule, TermModule]
    ensures ImportStep([BooleanModule, TextModule, CommentModule, DoubleModule, LongModule, MapModule, TagModule, TermModule], TimestampModule) == [BooleanModule, TextModule, CommentModule, DoubleModule, LongModule, MapModule, TagModule, TermModule, TimestampModule]
    ensures ImportStep([BooleanModule, TextModule, CommentModule, DoubleModule, LongModule, MapModule, TagModule, TermModule, TimestampModule], XmlModule) == [BooleanModule, TextModule, CommentModule, DoubleModule, LongModule, MapModule, TagModule, TermModule, TimestampModule, XmlModule]
  {
  }

  /** Importing the package's modules in `__init__` order into a fresh
      interpreter runs the text module second, straight before the comment
      module that imports it, and every module exactly once. */
  lemma PackageRunsSpec()
    ensures ImportStep(ImportStep(ImportStep(ImportStep(ImportStep(ImportStep(ImportStep(ImportStep(ImportStep(ImportStep(
              [], BooleanModule), CommentModule), DoubleModule), LongModule), MapModule),
              TagModule), TermModule), TextModule), TimestampModule), XmlModule)
            == PackageRuns
    ensures Distinct(PackageRuns) && TextFirst(PackageRuns)
  {
    PackageStepsFirst();
    PackageStepsMiddle();
    PackageStepsLast();
    PackageRunsOnce();
  }

  /** Each module in `PackageRuns` once, the text module before comment, tag and XML. */
  lemma PackageRunsOnce()
    ensures Distinct(PackageRuns) && TextFirst(PackageRuns)
  {
    assert PackageRuns[..1] == [BooleanModule];
  }

  /** The order in which the package's `__init__` imports its modules. */
  const ImportOrder: seq<EncoderModule> :=
    [BooleanModule, CommentModule, DoubleModule, LongModule, MapModule,
     TagModule, TermModule, TextModule, TimestampModule, XmlModule]

  /** Where a module stands in the package's `__init__`. */
  function ModuleIndex(m: EncoderModule): nat
  {
    match m
    case BooleanModule => 0
    case CommentModule => 1
    case DoubleModule => 2
    case LongModule => 3
    case MapModule => 4
    case TagModule => 5
    case TermModule => 6
    case TextModule => 7
    case TimestampModule => 8
    case XmlModule => 9
  }

  /** The package's `__init__` imports every module. */
  lemma ModuleIndexSpec(m: EncoderModule)
    ensures ModuleIndex(m) < |ImportOrder| && ImportOrder[ModuleIndex(m)] == m
  {
  }

  /** Once every module of `__init__` has run, every class maps to its override. */
  lemma TableAfterAll(table: map<AnnotationClass, Encoder>, ran: seq<EncoderModule>)
    requires forall c :: c in table && table[c] == EntryAfter(c, ran)
    requires forall k :: 0 <= k < |ImportOrder| ==> ImportOrder[k] in ran
    ensures forall c :: table[c] == Invariant(ModuleOf(c))
  {
    forall c ensures table[c] == Invariant(ModuleOf(c)) {
      ModuleIndexSpec(ModuleOf(c));
    }
  }

  /** The table once the package is imported. */
  function PackageTable(): map<AnnotationClass, Encoder>
  {
    map c: AnnotationClass | true :: Invariant(ModuleOf(c))
  }

  /** Encoding through the package's table: the key each class adds, over
      the layer of the library it builds on. Map annotations without a map
      value give no document; XML annotations get the library's text
      encoding with no key of this package; the term override adds
      `TermValue`, not the tag encoding's `TextValue`. */
  lemma PackageEncoding(lib: Library, a: Annotation)
    ensures var r := Apply(lib, PackageTable()[a.cls], a);
      && (r.None? <==> a.cls == MapAnnotation && a.mapValue.None?)
      && (a.cls in {TextAnnotation, CommentAnnotation, TagAnnotation} ==>
            Extends(lib(ParentEncoder(TextAnnotation), a), r.value, "TextValue", MapOption(a.textValue, s => JStr(s))))
      && (a.cls == XmlAnnotation ==> r == Some(lib(KindEncoder(TextAnnotation), a)))
      && (a.cls == TermAnnotation ==> Extends(lib(ParentEncoder(TermAnnotation), a), r.value, "TermValue", MapOption(a.termValue, s => JStr(s))))
      && (a.cls == TimestampAnnotation ==> Extends(lib(KindEncoder(TimestampAnnotation), a), r.value, "Value", MapOption(a.timeValue, t => JOpaque(t))))
      && (a.cls == DoubleAnnotation ==> Extends(lib(KindEncoder(DoubleAnnotation), a), r.value, "DoubleValue", MapOption(a.doubleValue, d => JOpaque(d))))
      && (a.cls == BooleanAnnotation ==> Extends(lib(ParentEncoder(BooleanAnnotation), a), r.value, "BoolValue", MapOption(a.boolValue, b => JBool(b))))
      && (a.cls == LongAnnotation ==> Extends(lib(ParentEncoder(LongAnnotation), a), r.value, "LongValue", MapOption(a.longValue, n => JInt(n))))
  {
    assert PackageTable()[a.cls] == Invariant(ModuleOf(a.cls));
    var r := Apply(lib, PackageTable()[a.cls], a);
    match a.cls
    case MapAnnotation => assert r == EncodeMap(lib, a);
    case XmlAnnotation => assert r == Some(EncodeXml(lib, a));
    case _ => assert r.Some?;
  }
}
