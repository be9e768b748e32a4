/**
 * Generator selection of the C/D back end (cdMakeCodeGen): a host language
 * and a code style name one of sixteen concrete code generators, and the new
 * generator is stamped with the metadata of the definition it is made for.
 */
module CodeGen {
  import opened Wrappers

  /** The host language of the run; every language other than C and D is `Other`. */
  datatype HostLang = C | D | Other(name: string)

  /** The languages this back end emits. */
  predicate IsCdLang(lang: HostLang) {
    lang.C? || lang.D?
  }

  /** The eight generated-code styles (-T0, -T1, -F0, -F1, -G0, -G1, -G2, -P<N>). */
  datatype CodeStyle =
    | GenTables | GenFTables | GenFlat | GenFFlat
    | GenGoto | GenFGoto | GenIpGoto | GenSplit

  /** The concrete generator classes; their code-emission bodies are not modelled. */
  datatype GenKind =
    | CTabCodeGen | CFTabCodeGen | CFlatCodeGen | CFFlatCodeGen
    | CGotoCodeGen | CFGotoCodeGen | CIpGotoCodeGen | CSplitCodeGen
    | DTabCodeGen | DFTabCodeGen | DFlatCodeGen | DFFlatCodeGen
    | DGotoCodeGen | DFGotoCodeGen | DIpGotoCodeGen | DSplitCodeGen

  /** The language a generator class emits, read off its name. */
  function KindLang(k: GenKind): HostLang {
    match k
    case CTabCodeGen | CFTabCodeGen | CFlatCodeGen | CFFlatCodeGen
       | CGotoCodeGen | CFGotoCodeGen | CIpGotoCodeGen | CSplitCodeGen => C
    case _ => D
  }

  /** The code style a generator class implements, read off its name. */
  function KindStyle(k: GenKind): CodeStyle {
    match k
    case CTabCodeGen | DTabCodeGen => GenTables
    case CFTabCodeGen | DFTabCodeGen => GenFTables
    case CFlatCodeGen | DFlatCodeGen => GenFlat
    case CFFlatCodeGen | DFFlatCodeGen => GenFFlat
    case CGotoCodeGen | DGotoCodeGen => GenGoto
    case CFGotoCodeGen | DFGotoCodeGen => GenFGoto
    case CIpGotoCodeGen | DIpGotoCodeGen => GenIpGoto
    case CSplitCodeGen | DSplitCodeGen => GenSplit
  }

  /**
   * The two-level switch of cdMakeCodeGen: None is the null pointer left by
   * the `default` branch of the language switch.
   */
  function SelectGenerator(lang: HostLang, style: CodeStyle): (r: Option<GenKind>)
    ensures r.Some? <==> IsCdLang(lang)
    ensures r.Some? ==> KindLang(r.value) == lang && KindStyle(r.value) == style
  {
    match lang
    case C =>
      (match style
       case GenTables => Some(CTabCodeGen)
       case GenFTables => Some(CFTabCodeGen)
       case GenFlat => Some(CFlatCodeGen)
       case GenFFlat => Some(CFFlatCodeGen)
       case GenGoto => Some(CGotoCodeGen)
       case GenFGoto => Some(CFGotoCodeGen)
       case GenIpGoto => Some(CIpGotoCodeGen)
       case GenSplit => Some(CSplitCodeGen))
    case D =>
      (match style
       case GenTables => Some(DTabCodeGen)
       case GenFTables => Some(DFTabCodeGen)
       case GenFlat => Some(DFlatCodeGen)
       case GenFFlat => Some(DFFlatCodeGen)
       case GenGoto => Some(DGotoCodeGen)
       case GenFGoto => Some(DFGotoCodeGen)
       case GenIpGoto => Some(DIpGotoCodeGen)
       case GenSplit => Some(DSplitCodeGen))
    case Other(_) => None
  }

  /** A generator as the back end hands it to the parser: its class, its stream and its metadata. */
  datatype CodeGenData<Out> = CodeGenData(
    kind: GenKind,
    out: Out,
    sourceFileName: string,
    fsmName: string,
    wantComplete: bool)

  /**
   * cdMakeCodeGen. The source dereferences the generator unconditionally, so
   * it relies on the language being C or D.
   */
  function MakeCodeGen<Out>(lang: HostLang, style: CodeStyle, out: Out,
                            sourceFileName: string, fsmName: string,
                            wantComplete: bool): (g: CodeGenData<Out>)
    requires IsCdLang(lang)
    ensures KindLang(g.kind) == lang && KindStyle(g.kind) == style
    ensures g.out == out
    ensures g.sourceFileName == sourceFileName && g.fsmName == fsmName
    ensures g.wantComplete == wantComplete
  {
    var kind := SelectGenerator(lang, style);
    CodeGenData(kind.value, out, sourceFileName, fsmName, wantComplete)
  }

  /** Different (language, style) pairs select different generator classes. */
  lemma SelectionInjective(l1: HostLang, s1: CodeStyle, l2: HostLang, s2: CodeStyle)
    requires IsCdLang(l1) && SelectGenerator(l1, s1) == SelectGenerator(l2, s2)
    ensures l1 == l2 && s1 == s2
  {
  }

  /** Every one of the sixteen generator classes is reached by its own pair. */
  lemma EveryKindSelected(k: GenKind)
    ensures IsCdLang(KindLang(k))
    ensures SelectGenerator(KindLang(k), KindStyle(k)) == Some(k)
  {
  }
}
