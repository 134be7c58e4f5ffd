/**
 * Sequences of writer calls: every balanced sequence prints the tree it describes, and that
 * text parses back to the tree.
 */
module WriterCalls {
  import opened Base
  import opened JsonTree
  import opened JsonWriting
  import opened Decimal
  import JsonParse

  datatype Call =
    | BeginObject
    | BeginObjectField(name: string)
    | BeginArrayField(name: string)
    | EndObject
    | EndArray
    | StringField(name: string, text: string)
    | BoolField(name: string, flag: bool)
    | IntField(name: string, number: int)
    | RawElement(raw: string)
    | RawField(name: string, raw: string)

  /** What one call does to the writer's state. */
  function Step(w: Writer, c: Call): Writer {
    match c
    case BeginObject => Open(w, "{")
    case BeginObjectField(name) => Open(w, Literal(name) + ":{")
    case BeginArrayField(name) => Open(w, Literal(name) + ":[")
    case EndObject => Close(w, "}")
    case EndArray => Close(w, "]")
    case RawElement(raw) => Put(w, raw)
    case _ => Put(w, PrintMember(FieldOf(c)))
  }

  predicate IsScalarField(c: Call) { c.StringField? || c.BoolField? || c.IntField? || c.RawField? }

  /** The value a spliced text spells: the tree it is the print of, or else the text as a token. */
  function Spliced(raw: string): (t: Json)
    ensures Print(t) == raw
  {
    match JsonParse.Parse(raw)
    case Some(t) => if Print(t) == raw then t else JToken(raw)
    case None => JToken(raw)
  }

  /** The member a scalar field call writes. */
  function FieldOf(c: Call): Member
    requires IsScalarField(c)
  {
    match c
    case StringField(name, text) => Member(name, JString(text))
    case BoolField(name, flag) => Member(name, JToken(BoolText(flag)))
    case IntField(name, number) => Member(name, JToken(IntText(number)))
    case RawField(name, raw) => Member(name, Spliced(raw))
  }

  function Run(w: Writer, cs: seq<Call>): Writer
    decreases cs
  {
    if cs == [] then w else Run(Step(w, cs[0]), cs[1..])
  }

  /** The calls made one by one on a writer object. */
  method Replay(w: JsonWriter, cs: seq<Call>)
    modifies w
    ensures w.State() == Run(old(w.State()), cs)
  {
    var i := 0;
    assert cs[0..] == cs;
    while i < |cs|
      invariant i <= |cs| && Run(w.State(), cs[i..]) == Run(old(w.State()), cs)
    {
      assert cs[i..][1..] == cs[i + 1..];
      match cs[i] {
        case BeginObject => w.BeginObject();
        case BeginObjectField(name) => w.BeginObjectField(name);
        case BeginArrayField(name) => w.BeginArrayField(name);
        case EndObject => w.EndObject();
        case EndArray => w.EndArray();
        case StringField(name, text) => w.StringField(name, text);
        case BoolField(name, flag) => w.BoolField(name, flag);
        case IntField(name, number) => w.IntField(name, number);
        case RawElement(raw) => w.RawElement(raw);
        case RawField(name, raw) => w.RawField(name, raw);
      }
      i := i + 1;
    }
  }

  // ------------------------------------------------- balanced sequences

  /** The element a call sequence starts with, and the calls after it; None when it is not one. */
  function ReadElement(cs: seq<Call>): (r: Option<(Json, seq<Call>)>)
    ensures r.Some? ==> |r.value.1| < |cs|
    decreases |cs|, 0
  {
    if cs == [] then None
    else match cs[0]
         case RawElement(raw) => Some((Spliced(raw), cs[1..]))
         case BeginObject =>
           (match ReadFields(cs[1..])
            case None => None
            case Some((ms, rest)) => Some((JObject(ms), rest)))
         case _ => None
  }

  /** The field a call sequence starts with. */
  function ReadField(cs: seq<Call>): (r: Option<(Member, seq<Call>)>)
    ensures r.Some? ==> |r.value.1| < |cs|
    decreases |cs|, 0
  {
    if cs == [] then None
    else if IsScalarField(cs[0]) then Some((FieldOf(cs[0]), cs[1..]))
    else match cs[0]
         case BeginObjectField(name) =>
           (match ReadFields(cs[1..])
            case None => None
            case Some((ms, rest)) => Some((Member(name, JObject(ms)), rest)))
         case BeginArrayField(name) =>
           (match ReadItems(cs[1..])
            case None => None
            case Some((xs, rest)) => Some((Member(name, JArray(xs)), rest)))
         case _ => None
  }

  /** Fields up to and including the call that closes their object. */
  function ReadFields(cs: seq<Call>): (r: Option<(seq<Member>, seq<Call>)>)
    ensures r.Some? ==> |r.value.1| < |cs|
    decreases |cs|, 1
  {
    if cs != [] && cs[0] == EndObject then Some(([], cs[1..]))
    else match ReadField(cs)
         case None => None
         case Some((m, rest)) =>
           match ReadFields(rest)
           case None => None
           case Some((ms, after)) => Some(([m] + ms, after))
  }

  function ReadItems(cs: seq<Call>): (r: Option<(seq<Json>, seq<Call>)>)
    ensures r.Some? ==> |r.value.1| < |cs|
    decreases |cs|, 1
  {
    if cs != [] && cs[0] == EndArray then Some(([], cs[1..]))
    else match ReadElement(cs)
         case None => None
         case Some((x, rest)) =>
           match ReadItems(rest)
           case None => None
           case Some((xs, after)) => Some(([x] + xs, after))
  }

  /** The state after a scope's printed contents (`some`: there are any) and its closing bracket. */
  function CloseWith(w: Writer, inner: string, some: bool, close: string): Writer
    requires w.needsComma != []
  {
    Close(Writer(w.out + (if Last(w) && some then "," else "") + inner, w.needsComma), close)
  }

  lemma CloseOpened(w: Writer, open: string, inner: string, some: bool, close: string)
    ensures CloseWith(Open(w, open), inner, some, close) == Put(w, open + inner + close)
  {
    var p := Open(w, open);
    assert p.out + "" == p.out;
    PutThen(w, open, inner);
    PutThen(w, open + inner, close);
    assert p.needsComma[..|p.needsComma| - 1] == Put(w, open).needsComma;
  }

  lemma CloseStep(w: Writer, first: string, others: string, some: bool, close: string)
    requires w.needsComma != [] && (!some ==> others == "")
    ensures CloseWith(Put(w, first), others, some, close)
            == CloseWith(w, first + (if some then "," + others else ""), true, close)
  {
    var sep, p := if Last(w) then "," else "", Put(w, first);
    assert Last(p);
    var n := |w.needsComma| - 1;
    assert p.needsComma[..n] == w.needsComma[..n];
    if some {
      Assoc(p.out, ",", others);
      Assoc(w.out + sep, first, "," + others);
    } else {
      assert p.out + "" + others == p.out && first + "" == first;
    }
  }

  lemma {:induction false} ElementPrints(cs: seq<Call>, w: Writer)
    requires ReadElement(cs).Some?
    ensures var (t, rest) := ReadElement(cs).value; Run(w, cs) == Run(Put(w, Print(t)), rest)
    decreases |cs|, 0
  {
    if cs[0] == BeginObject {
      var (ms, rest) := ReadFields(cs[1..]).value;
      FieldsPrint(cs[1..], Open(w, "{"));
      CloseOpened(w, "{", PrintMembers(ms), ms != [], "}");
    }
  }

  lemma {:induction false} FieldPrints(cs: seq<Call>, w: Writer)
    requires ReadField(cs).Some?
    ensures var (m, rest) := ReadField(cs).value; Run(w, cs) == Run(Put(w, PrintMember(m)), rest)
    decreases |cs|, 0
  {
    match cs[0]
    case BeginObjectField(name) =>
      var (ms, rest) := ReadFields(cs[1..]).value;
      FieldsPrint(cs[1..], Open(w, Literal(name) + ":{"));
      CloseOpened(w, Literal(name) + ":{", PrintMembers(ms), ms != [], "}");
      assert ":{" == ":" + "{";
      BracketText(Literal(name), "{", PrintMembers(ms), "}");
    case BeginArrayField(name) =>
      var (xs, rest) := ReadItems(cs[1..]).value;
      ItemsPrint(cs[1..], Open(w, Literal(name) + ":["));
      CloseOpened(w, Literal(name) + ":[", PrintItems(xs), xs != [], "]");
      assert ":[" == ":" + "[";
      BracketText(Literal(name), "[", PrintItems(xs), "]");
    case _ =>
  }

  lemma BracketText(name: string, open: string, inner: string, close: string)
    ensures name + (":" + open) + inner + close == name + ":" + (open + inner + close)
  {
    Assoc(name, ":", open);
    Assoc(name + ":", open, inner);
    Assoc(name + ":", open + inner, close);
  }

  lemma {:induction false} FieldsPrint(cs: seq<Call>, w: Writer)
    requires ReadFields(cs).Some? && w.needsComma != []
    ensures var (ms, rest) := ReadFields(cs).value; Run(w, cs) == Run(CloseWith(w, PrintMembers(ms), ms != [], "}"), rest)
    decreases |cs|, 1
  {
    if cs[0] == EndObject {
      assert w.out + "" + "" == w.out;
    } else {
      var (m, rest) := ReadField(cs).value;
      var (ms, after) := ReadFields(rest).value;
      FieldPrints(cs, w);
      FieldsPrint(rest, Put(w, PrintMember(m)));
      assert ([m] + ms)[1..] == ms;
      CloseStep(w, PrintMember(m), PrintMembers(ms), ms != [], "}");
    }
  }

  lemma {:induction false} ItemsPrint(cs: seq<Call>, w: Writer)
    requires ReadItems(cs).Some? && w.needsComma != []
    ensures var (xs, rest) := ReadItems(cs).value; Run(w, cs) == Run(CloseWith(w, PrintItems(xs), xs != [], "]"), rest)
    decreases |cs|, 1
  {
    if cs[0] == EndArray {
      assert w.out + "" + "" == w.out;
    } else {
      var (x, rest) := ReadElement(cs).value;
      var (xs, after) := ReadItems(rest).value;
      ElementPrints(cs, w);
      ItemsPrint(rest, Put(w, Print(x)));
      assert ([x] + xs)[1..] == xs;
      CloseStep(w, Print(x), PrintItems(xs), xs != [], "]");
    }
  }

  /** A balanced sequence of calls on a new writer leaves exactly the printed tree. */
  lemma BalancedCallsPrint(cs: seq<Call>)
    requires ReadElement(cs).Some? && ReadElement(cs).value.1 == []
    ensures Run(EMPTY, cs) == Writer(Print(ReadElement(cs).value.0), [])
    ensures WellFormed(ReadElement(cs).value.0) ==> JsonParse.Parse(Run(EMPTY, cs).out) == Some(ReadElement(cs).value.0)
  {
    var t := ReadElement(cs).value.0;
    ElementPrints(cs, EMPTY);
    assert "" + Print(t) == Print(t);
    if WellFormed(t) {
      JsonParse.ParseOfPrint(t);
    }
  }
}
