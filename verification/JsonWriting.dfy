/**
 * The comma-stack writer of src/json_writer.cpp: an append-only buffer and one "needs a comma"
 * flag for every open scope.
 */
module JsonWriting {
  import opened Base
  import opened JsonText
  import opened JsonTree
  import opened Decimal

  /** The writer's two fields as a value. */
  datatype Writer = Writer(out: string, needsComma: seq<bool>)

  const EMPTY := Writer("", [])

  /** `text` added as the next element of the innermost scope, or at top level. */
  function Put(w: Writer, text: string): Writer {
    if w.needsComma == [] then Writer(w.out + text, [])
    else Writer(w.out + (if Last(w) then "," else "") + text, w.needsComma[|w.needsComma| - 1 := true])
  }

  predicate Last(w: Writer)
    requires w.needsComma != []
  {
    w.needsComma[|w.needsComma| - 1]
  }

  /** `text` opens a scope, itself an element of the scope around it. */
  function Open(w: Writer, text: string): Writer {
    var p := Put(w, text);
    Writer(p.out, p.needsComma + [false])
  }

  function Close(w: Writer, text: string): Writer {
    Writer(w.out + text, if w.needsComma == [] then [] else w.needsComma[..|w.needsComma| - 1])
  }

  /** Text added after the separator of an element is that element. */
  lemma PutThen(w: Writer, a: string, b: string)
    ensures Writer(Put(w, a).out + b, Put(w, a).needsComma) == Put(w, a + b)
  {
    if w.needsComma == [] {
      Assoc(w.out, a, b);
    } else {
      Assoc(w.out + (if Last(w) then "," else ""), a, b);
    }
  }

  lemma NameText(before: string, name: string)
    ensures before + "\"" + Escape(name) + "\":" == before + (Literal(name) + ":")
  {
    Splice(before, Escape(name));
    assert "\":" == "\"" + ":";
    Assoc(before + "\"" + Escape(name), "\"", ":");
    Assoc(before, Literal(name), ":");
  }

  lemma Splice(before: string, escaped: string)
    ensures before + "\"" + escaped + "\"" == before + ("\"" + escaped + "\"")
  {
    Assoc(before, "\"", escaped);
    Assoc(before, "\"" + escaped, "\"");
  }

  function BoolText(b: bool): string { if b then "true" else "false" }

  class JsonWriter {
    var out: string
    var needsComma: seq<bool>

    ghost function State(): Writer
      reads this
    {
      Writer(out, needsComma)
    }

    constructor ()
      ensures State() == EMPTY
    {
      out, needsComma := "", [];
    }

    method BeginObject()
      modifies this
      ensures State() == Open(old(State()), "{")
    {
      ElementPrefix();
      PutThen(old(State()), "", "{");
      out := out + "{";
      PushScope();
    }

    method BeginObjectField(name: string)
      modifies this
      ensures State() == Open(old(State()), Literal(name) + ":{")
    {
      NamePrefix(name);
      PutThen(old(State()), Literal(name) + ":", "{");
      assert Literal(name) + ":" + "{" == Literal(name) + ":{";
      out := out + "{";
      PushScope();
    }

    method BeginArrayField(name: string)
      modifies this
      ensures State() == Open(old(State()), Literal(name) + ":[")
    {
      NamePrefix(name);
      PutThen(old(State()), Literal(name) + ":", "[");
      assert Literal(name) + ":" + "[" == Literal(name) + ":[";
      out := out + "[";
      PushScope();
    }

    method EndObject()
      modifies this
      ensures State() == Close(old(State()), "}")
    {
      out := out + "}";
      PopScope();
    }

    method EndArray()
      modifies this
      ensures State() == Close(old(State()), "]")
    {
      out := out + "]";
      PopScope();
    }

    method StringField(name: string, value: string)
      modifies this
      ensures State() == Put(old(State()), PrintMember(Member(name, JString(value))))
    {
      NamePrefix(name);
      var escaped := JsonEscape(value);
      out := out + "\"";
      out := out + escaped;
      out := out + "\"";
      Splice(Put(old(State()), Literal(name) + ":").out, escaped);
      PutThen(old(State()), Literal(name) + ":", Literal(value));
    }

    method BoolField(name: string, value: bool)
      modifies this
      ensures State() == Put(old(State()), PrintMember(Member(name, JToken(BoolText(value)))))
    {
      RawField(name, if value then "true" else "false");
    }

    /** An integer, printed exactly and never in exponent form. */
    method IntField(name: string, value: int)
      modifies this
      ensures State() == Put(old(State()), PrintMember(Member(name, JToken(IntText(value)))))
    {
      RawField(name, IntText(value));
    }

    /** Text spliced in verbatim as an element. */
    method RawElement(raw: string)
      modifies this
      ensures State() == Put(old(State()), raw)
    {
      ElementPrefix();
      PutThen(old(State()), "", raw);
      assert "" + raw == raw;
      out := out + raw;
    }

    /** Text spliced in verbatim as a field's value; printed numbers arrive this way too. */
    method RawField(name: string, raw: string)
      modifies this
      ensures State() == Put(old(State()), PrintMember(Member(name, JToken(raw))))
    {
      NamePrefix(name);
      PutThen(old(State()), Literal(name) + ":", raw);
      out := out + raw;
    }

    method ElementPrefix()
      modifies this
      ensures State() == Put(old(State()), "")
    {
      assert out + "" == out;
      if needsComma != [] {
        if needsComma[|needsComma| - 1] {
          out := out + ",";
        }
        assert out + "" == out;
        needsComma := needsComma[|needsComma| - 1 := true];
      }
    }

    method NamePrefix(name: string)
      modifies this
      ensures State() == Put(old(State()), Literal(name) + ":")
    {
      ElementPrefix();
      var escaped := JsonEscape(name);
      ghost var before := out;
      out := out + "\"";
      out := out + escaped;
      out := out + "\":";
      NameText(before, name);
      PutThen(old(State()), "", Literal(name) + ":");
      assert "" + (Literal(name) + ":") == Literal(name) + ":";
    }

    method PushScope()
      modifies this`needsComma
      ensures needsComma == old(needsComma) + [false]
    {
      needsComma := needsComma + [false];
    }

    method PopScope()
      modifies this`needsComma
      ensures needsComma == if old(needsComma) == [] then [] else old(needsComma)[..|old(needsComma)| - 1]
    {
      if needsComma != [] {
        needsComma := needsComma[..|needsComma| - 1];
      }
    }
  }
}
