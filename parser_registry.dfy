// The registry of statement parsers: a dictionary from bank tag to parser
// class, kept in insertion order, that callers may extend at run time.
module ParserRegistry {
  import opened StatementData

  /** The parser classes of the package, and any other class a caller registers. */
  datatype ParserClass =
    | ChaseParserClass | AmexParserClass | BancoNacionParserClass | GenericParserClass
    | OtherClass(name: string, extendsBase: bool)

  /** Whether the class derives from the base statement parser. */
  predicate ExtendsBase(c: ParserClass)
  {
    !c.OtherClass? || c.extendsBase
  }

  /** The class each tag starts out with: three banks have their own parser, the rest use the generic one. */
  function DefaultClass(b: BankType): (c: ParserClass)
    ensures c == ChaseParserClass <==> b == Chase
    ensures c == AmexParserClass <==> b == Amex
    ensures c == BancoNacionParserClass <==> b == BancoNacion
    ensures c.GenericParserClass? <==> b !in {Chase, Amex, BancoNacion}
  {
    match b
    case Chase => ChaseParserClass
    case Amex => AmexParserClass
    case BancoNacion => BancoNacionParserClass
    case _ => GenericParserClass
  }

  /** The entries the registry is created with, in the order they are written. */
  const InitialKeys: seq<BankType> :=
    [Chase, Amex, BancoNacion, Generic, Citibank, BankOfAmerica, CapitalOne, WellsFargo, Discover]

  const InitialEntries: map<BankType, ParserClass> :=
    map b | b in InitialKeys :: DefaultClass(b)

  /** The class a lookup of `b` instantiates: the registered one, or the generic parser. */
  function ClassFor(entries: map<BankType, ParserClass>, b: BankType): (c: ParserClass)
    ensures b in entries ==> c == entries[b]
    ensures b !in entries ==> c == GenericParserClass
  {
    if b in entries then entries[b] else GenericParserClass
  }

  /** The initial registry holds every tag exactly once, and what a lookup returns is each tag's default. */
  lemma InitialRegistry()
    ensures |InitialKeys| == |AllBanks|
    ensures forall b :: b in InitialKeys
    ensures forall i, j :: 0 <= i < j < |InitialKeys| ==> InitialKeys[i] != InitialKeys[j]
    ensures forall b :: ClassFor(InitialEntries, b) == DefaultClass(b)
  {
    forall b ensures b in InitialKeys {
      match b
      case Chase => assert InitialKeys[0] == b;
      case Amex => assert InitialKeys[1] == b;
      case BancoNacion => assert InitialKeys[2] == b;
      case Generic => assert InitialKeys[3] == b;
      case Citibank => assert InitialKeys[4] == b;
      case BankOfAmerica => assert InitialKeys[5] == b;
      case CapitalOne => assert InitialKeys[6] == b;
      case WellsFargo => assert InitialKeys[7] == b;
      case Discover => assert InitialKeys[8] == b;
    }
  }

  /** Registering changes the lookup of the registered tag and of no other. */
  lemma ClassForUpdate(entries: map<BankType, ParserClass>, b: BankType, c: ParserClass, other: BankType)
    ensures ClassFor(entries[b := c], b) == c
    ensures other != b ==> ClassFor(entries[b := c], other) == ClassFor(entries, other)
  {
  }

  /** A parser object; its class decides how it parses a statement. */
  class Parser {
    const cls: ParserClass

    constructor(cls: ParserClass)
      ensures this.cls == cls
    {
      this.cls := cls;
    }
  }

  datatype Registration = Registered | ValueError(message: string)

  const NotAParser := "Parser class must extend BaseStatementParser"

  /** The module-level registry dictionary. */
  class Registry {
    var keys: seq<BankType>
    var entries: map<BankType, ParserClass>

    /** The keys are those of the dictionary, each once, in insertion order. */
    predicate Valid()
      reads this
    {
      (forall b :: b in entries <==> b in keys)
      && (forall i, j :: 0 <= i < j < |keys| ==> keys[i] != keys[j])
    }

    constructor()
      ensures Valid()
      ensures keys == InitialKeys && entries == InitialEntries
    {
      keys := InitialKeys;
      entries := InitialEntries;
      InitialRegistry();
    }

    /** Never absent: an unregistered tag gets a new generic parser, and every call builds a new object. */
    method GetParserForBank(b: BankType) returns (p: Parser)
      ensures fresh(p)
      ensures p.cls == ClassFor(entries, b)
    {
      var c := if b in entries then entries[b] else GenericParserClass;
      p := new Parser(c);
    }

    /** The registered tags in insertion order. */
    method GetSupportedBanks() returns (banks: seq<BankType>)
      requires Valid()
      ensures banks == keys
      ensures forall b :: b in banks <==> b in entries
    {
      banks := keys;
    }

    /** A class not derived from the base parser is refused and nothing changes; otherwise the
        tag's entry (and only it) is set, a new tag going to the end of the order. */
    method RegisterParser(b: BankType, c: ParserClass) returns (r: Registration)
      requires Valid()
      modifies this
      ensures Valid()
      ensures !ExtendsBase(c) ==> r == ValueError(NotAParser) && keys == old(keys) && entries == old(entries)
      ensures ExtendsBase(c) ==> r == Registered && entries == old(entries)[b := c]
      ensures ExtendsBase(c) ==> keys == if b in old(entries) then old(keys) else old(keys) + [b]
    {
      if !ExtendsBase(c) {
        return ValueError(NotAParser);
      }
      if b !in entries {
        keys := keys + [b];
      }
      entries := entries[b := c];
      r := Registered;
    }
  }
}
