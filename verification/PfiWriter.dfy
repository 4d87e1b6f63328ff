/** Layer trees written to a document file, as a stream of markup events. */
module PfiWriter {
  import opened Basics
  import opened LayerTree
  import opened XmlText
  import opened DecimalText

  datatype Attr = Attr(name: string, text: string)

  datatype Event = Open(element: string, attrs: seq<Attr>) | Close(element: string)

  // -------------------------------------------------------------------------
  // What the printer writes: attribute texts are still raw
  // -------------------------------------------------------------------------

  /** The inputs that are written: those that name a layer of the pool. */
  function Written(inputs: seq<Input>, pool: set<int>): seq<Input> {
    if inputs == [] then []
    else if inputs[0].layer < 0 || inputs[0].layer !in pool then Written(inputs[1..], pool)
    else [inputs[0]] + Written(inputs[1..], pool)
  }

  function LayerAttrs(l: Layer, name: string, pool: set<int>): seq<Attr> {
    [Attr("name", name), Attr("id", PrintInt(l.id)), Attr("visible", PrintBool(l.enabled)),
     Attr("expanded", PrintBool(l.expanded)), Attr("normal", PrintBool(l.normal)),
     Attr("inputs", InputsText(Written(l.inputs, pool)))]
  }

  function PropertyEvents(name: string, text: string): seq<Event> {
    [Open("property", [Attr("name", name), Attr("value", text)]), Close("property")]
  }

  function PropsRaw(props: seq<Property>): seq<Event> {
    if props == [] then []
    else PropertyEvents(props[0].name, Escape(props[0].text)) + PropsRaw(props[1..])
  }

  function OperationRaw(op: Operation): seq<Event> {
    [Open("operation", [Attr("type", op.kind)])] + PropsRaw(op.props) + [Close("operation")]
  }

  function Sublist(kind: string, inner: seq<Event>): seq<Event> {
    [Open("sublayers", [Attr("type", kind)])] + inner + [Close("sublayers")]
  }

  function SaveList(list: seq<Layer>, pool: set<int>): seq<Event> {
    if list == [] then [] else SaveLayer(list[0], pool) + SaveList(list[1..], pool)
  }

  function SaveLayer(l: Layer, pool: set<int>): seq<Event> {
    if l.hidden then []
    else
      [Open("layer", LayerAttrs(l, Escape(l.name), pool))]
      + OperationRaw(l.op) + OperationRaw(l.blender)
      + Sublist("child", SaveList(l.sublayers, pool))
      + Sublist("imap", SaveList(l.imaps, pool))
      + Sublist("omap", SaveList(l.omaps, pool))
      + [Close("layer")]
  }

  // -------------------------------------------------------------------------
  // The printer
  // -------------------------------------------------------------------------

  method PrintOperation(op: Operation, out: seq<Event>) returns (r: seq<Event>)
    ensures r == out + OperationRaw(op)
  {
    r := out + [Open("operation", [Attr("type", op.kind)])];
    ghost var begun := r;
    assert op.props[0..] == op.props;
    for i := 0 to |op.props|
      invariant r + PropsRaw(op.props[i..]) == begun + PropsRaw(op.props)
    {
      var p := op.props[i];
      assert op.props[i..][0] == p && op.props[i..][1..] == op.props[i + 1..];
      var text := EscapeXml(p.text);
      ghost var rest := PropsRaw(op.props[i + 1..]);
      assert r + (PropertyEvents(p.name, text) + rest) == r + PropertyEvents(p.name, text) + rest;
      r := r + PropertyEvents(p.name, text);
    }
    assert op.props[|op.props|..] == [];
    assert r == begun + PropsRaw(op.props);
    r := r + [Close("operation")];
    assert r == out + OperationRaw(op);
  }

  method PrintList(list: seq<Layer>, pool: set<int>, out: seq<Event>) returns (r: seq<Event>)
    ensures r == out + SaveList(list, pool)
    decreases list, 0
  {
    r := out;
    assert list[0..] == list;
    for i := 0 to |list|
      invariant r + SaveList(list[i..], pool) == out + SaveList(list, pool)
    {
      assert list[i..][0] == list[i] && list[i..][1..] == list[i + 1..];
      ghost var before, rest := r, SaveList(list[i + 1..], pool);
      r := PrintLayer(list[i], pool, r);
      assert before + (SaveLayer(list[i], pool) + rest) == r + rest;
    }
    assert list[|list|..] == [];
  }

  method PrintSublist(kind: string, list: seq<Layer>, pool: set<int>, out: seq<Event>) returns (r: seq<Event>)
    ensures r == out + Sublist(kind, SaveList(list, pool))
    decreases list, 1
  {
    var open := out + [Open("sublayers", [Attr("type", kind)])];
    var inner := PrintList(list, pool, open);
    r := inner + [Close("sublayers")];
  }

  method PrintLayer(l: Layer, pool: set<int>, out: seq<Event>) returns (r: seq<Event>)
    ensures r == out + SaveLayer(l, pool)
    decreases l
  {
    if l.hidden {
      return out;
    }
    var name := EscapeXml(l.name);
    var head := [Open("layer", LayerAttrs(l, name, pool))];
    r := out + head;
    r := PrintOperation(l.op, r);
    r := PrintOperation(l.blender, r);
    r := PrintSublist("child", l.sublayers, pool, r);
    r := PrintSublist("imap", l.imaps, pool, r);
    r := PrintSublist("omap", l.omaps, pool, r);
    r := r + [Close("layer")];
    SevenPieces(out, head, OperationRaw(l.op), OperationRaw(l.blender), Sublist("child", SaveList(l.sublayers, pool)),
                Sublist("imap", SaveList(l.imaps, pool)), Sublist("omap", SaveList(l.omaps, pool)), [Close("layer")]);
  }

  lemma SevenPieces(out: seq<Event>, h: seq<Event>, a: seq<Event>, b: seq<Event>, c: seq<Event>, d: seq<Event>,
                    e: seq<Event>, z: seq<Event>)
    ensures out + h + a + b + c + d + e + z == out + (h + a + b + c + d + e + z)
  {
    assert out + h + a + b == out + (h + a + b);
    assert out + (h + a + b) + c + d == out + (h + a + b + c + d);
  }

  // -------------------------------------------------------------------------
  // What a reader of the markup receives
  // -------------------------------------------------------------------------

  function DeliverAttrs(attrs: seq<Attr>): Option<seq<Attr>> {
    if attrs == [] then Some([])
    else
      var text, more := Unescape(attrs[0].text), DeliverAttrs(attrs[1..]);
      if text.None? || more.None? then None
      else Some([Attr(attrs[0].name, text.value)] + more.value)
  }

  function DeliverEvent(e: Event): Option<Event> {
    match e
    case Close(_) => Some(e)
    case Open(element, attrs) =>
      var d := DeliverAttrs(attrs);
      if d.None? then None else Some(Open(element, d.value))
  }

  /** The parsed events; nothing if some attribute is not well formed. */
  function Deliver(events: seq<Event>): Option<seq<Event>> {
    if events == [] then Some([])
    else
      var e, more := DeliverEvent(events[0]), Deliver(events[1..]);
      if e.None? || more.None? then None else Some([e.value] + more.value)
  }

  function PropsEvents(props: seq<Property>): seq<Event> {
    if props == [] then []
    else PropertyEvents(props[0].name, Normalize(props[0].text)) + PropsEvents(props[1..])
  }

  function OperationEvents(op: Operation): seq<Event> {
    [Open("operation", [Attr("type", op.kind)])] + PropsEvents(op.props) + [Close("operation")]
  }

  function ListEvents(list: seq<Layer>, pool: set<int>): seq<Event> {
    if list == [] then [] else LayerEvents(list[0], pool) + ListEvents(list[1..], pool)
  }

  function LayerEvents(l: Layer, pool: set<int>): seq<Event> {
    if l.hidden then []
    else
      [Open("layer", LayerAttrs(l, Normalize(l.name), pool))]
      + OperationEvents(l.op) + OperationEvents(l.blender)
      + Sublist("child", ListEvents(l.sublayers, pool))
      + Sublist("imap", ListEvents(l.imaps, pool))
      + Sublist("omap", ListEvents(l.omaps, pool))
      + [Close("layer")]
  }

  /** Operation types and property names are plain words. */
  predicate PlainOperation(op: Operation) {
    Unescape(op.kind) == Some(op.kind)
    && forall i :: 0 <= i < |op.props| ==> Unescape(op.props[i].name) == Some(op.props[i].name)
  }

  predicate PlainWords(list: seq<Layer>) {
    list != [] ==> PlainWordsIn(list[0]) && PlainWords(list[1..])
  }

  predicate PlainWordsIn(l: Layer) {
    PlainOperation(l.op) && PlainOperation(l.blender)
    && PlainWords(l.sublayers) && PlainWords(l.imaps) && PlainWords(l.omaps)
  }

  predicate SimpleChar(c: char) {
    c == '-' || c == ' ' || IsDigit(c)
  }

  predicate Simple(s: string) {
    forall i :: 0 <= i < |s| ==> SimpleChar(s[i])
  }

  lemma {:induction false} SimpleIsPlain(s: string)
    requires Simple(s)
    ensures Unescape(s) == Some(s)
  {
    if s != "" {
      assert SimpleChar(s[0]);
      assert forall i :: 0 <= i < |s[1..]| ==> s[1..][i] == s[i + 1];
      SimpleIsPlain(s[1..]);
      assert s == [s[0]] + s[1..];
    }
  }

  lemma {:induction false} DigitsAreSimple(n: nat)
    ensures Simple(Digits(n))
  {
    if n >= 10 {
      DigitsAreSimple(n / 10);
    }
  }

  lemma IntIsSimple(n: int)
    ensures Simple(PrintInt(n))
  {
    DigitsAreSimple(if n < 0 then -n else n);
  }

  lemma {:induction false} InputsAreSimple(inputs: seq<Input>)
    ensures Simple(InputsText(inputs))
  {
    if inputs != [] {
      IntIsSimple(inputs[0].layer);
      IntIsSimple(inputs[0].image);
      PrintedFlag(inputs[0].blended);
      IntIsSimple(if inputs[0].blended then 1 else 0);
      InputsAreSimple(inputs[1..]);
    }
  }

  lemma {:induction false} DeliverConcat(a: seq<Event>, b: seq<Event>, x: seq<Event>, y: seq<Event>)
    requires Deliver(a) == Some(x) && Deliver(b) == Some(y)
    ensures Deliver(a + b) == Some(x + y)
  {
    if a == [] {
      assert a + b == b && x + y == y;
    } else {
      assert (a + b)[0] == a[0] && (a + b)[1..] == a[1..] + b;
      DeliverConcat(a[1..], b, x[1..], y);
      assert x + y == [x[0]] + (x[1..] + y);
    }
  }

  lemma DeliverOne(e: Event, d: Event)
    requires DeliverEvent(e) == Some(d)
    ensures Deliver([e]) == Some([d])
  {
    assert [e][1..] == [];
    assert Deliver([]) == Some([]);
    assert [d] + [] == [d];
  }

  lemma {:induction false} DeliverOpen(element: string, name: string, raw: string, text: string)
    requires Unescape(raw) == Some(text)
    ensures Deliver([Open(element, [Attr(name, raw)])]) == Some([Open(element, [Attr(name, text)])])
  {
    AttrsDelivered([Attr(name, raw)], [Attr(name, text)]);
    DeliverOne(Open(element, [Attr(name, raw)]), Open(element, [Attr(name, text)]));
  }

  lemma {:induction false} PropsDelivered(props: seq<Property>)
    requires forall i :: 0 <= i < |props| ==> Unescape(props[i].name) == Some(props[i].name)
    ensures Deliver(PropsRaw(props)) == Some(PropsEvents(props))
  {
    if props != [] {
      PropertyDelivered(props[0]);
      PropsDelivered(props[1..]);
      DeliverConcat(PropertyEvents(props[0].name, Escape(props[0].text)), PropsRaw(props[1..]),
                    PropertyEvents(props[0].name, Normalize(props[0].text)), PropsEvents(props[1..]));
    }
  }

  lemma PropertyDelivered(p: Property)
    requires Unescape(p.name) == Some(p.name)
    ensures Deliver(PropertyEvents(p.name, Escape(p.text))) == Some(PropertyEvents(p.name, Normalize(p.text)))
  {
    UnescapeEscape(p.text);
    var a := [Attr("name", p.name), Attr("value", Escape(p.text))];
    var b := [Attr("name", p.name), Attr("value", Normalize(p.text))];
    AttrsDelivered(a, b);
    DeliverOne(Open("property", a), Open("property", b));
    DeliverOne(Close("property"), Close("property"));
    DeliverConcat([Open("property", a)], [Close("property")], [Open("property", b)], [Close("property")]);
    assert [Open("property", a)] + [Close("property")] == PropertyEvents(p.name, Escape(p.text));
    assert [Open("property", b)] + [Close("property")] == PropertyEvents(p.name, Normalize(p.text));
  }

  lemma OperationDelivered(op: Operation)
    requires PlainOperation(op)
    ensures Deliver(OperationRaw(op)) == Some(OperationEvents(op))
  {
    DeliverOpen("operation", "type", op.kind, op.kind);
    PropsDelivered(op.props);
    DeliverOne(Close("operation"), Close("operation"));
    var head := [Open("operation", [Attr("type", op.kind)])];
    DeliverConcat(head, PropsRaw(op.props), head, PropsEvents(op.props));
    DeliverConcat(head + PropsRaw(op.props), [Close("operation")], head + PropsEvents(op.props), [Close("operation")]);
  }

  lemma {:induction false} SublistDelivered(kind: string, inner: seq<Event>, delivered: seq<Event>)
    requires LowerCase(kind) && Deliver(inner) == Some(delivered)
    ensures Deliver(Sublist(kind, inner)) == Some(Sublist(kind, delivered))
  {
    PlainWord(kind);
    DeliverOpen("sublayers", "type", kind, kind);
    var head := [Open("sublayers", [Attr("type", kind)])];
    DeliverOne(Close("sublayers"), Close("sublayers"));
    DeliverConcat(head, inner, head, delivered);
    DeliverConcat(head + inner, [Close("sublayers")], head + delivered, [Close("sublayers")]);
  }

  lemma {:induction false} AttrsDelivered(raw: seq<Attr>, texts: seq<Attr>)
    requires |raw| == |texts|
    requires forall i :: 0 <= i < |raw| ==> raw[i].name == texts[i].name && Unescape(raw[i].text) == Some(texts[i].text)
    ensures DeliverAttrs(raw) == Some(texts)
  {
    if raw != [] {
      AttrsDelivered(raw[1..], texts[1..]);
      assert texts == [Attr(raw[0].name, texts[0].text)] + texts[1..];
    }
  }

  lemma LayerHeadDelivered(l: Layer, pool: set<int>)
    ensures Deliver([Open("layer", LayerAttrs(l, Escape(l.name), pool))])
         == Some([Open("layer", LayerAttrs(l, Normalize(l.name), pool))])
  {
    UnescapeEscape(l.name);
    IntIsSimple(l.id);
    SimpleIsPlain(PrintInt(l.id));
    InputsAreSimple(Written(l.inputs, pool));
    SimpleIsPlain(InputsText(Written(l.inputs, pool)));
    IntIsSimple(1);
    IntIsSimple(0);
    PrintedFlag(true);
    PrintedFlag(false);
    SimpleIsPlain(PrintBool(true));
    SimpleIsPlain(PrintBool(false));
    AttrsDelivered(LayerAttrs(l, Escape(l.name), pool), LayerAttrs(l, Normalize(l.name), pool));
    DeliverOne(Open("layer", LayerAttrs(l, Escape(l.name), pool)),
               Open("layer", LayerAttrs(l, Normalize(l.name), pool)));
  }

  predicate LowerCase(s: string) {
    forall i :: 0 <= i < |s| ==> 'a' <= s[i] <= 'z'
  }

  lemma KindsAreLowerCase()
    ensures LowerCase("child") && LowerCase("imap") && LowerCase("omap")
  {
  }

  lemma {:induction false} PlainWord(s: string)
    requires LowerCase(s)
    ensures Unescape(s) == Some(s)
  {
    if s != "" {
      assert 'a' <= s[0] <= 'z';
      PlainWord(s[1..]);
      assert s == [s[0]] + s[1..];
    }
  }

  /** What the parser hands over for a saved tree: the same events with names and values in
      normalized form. */
  lemma {:induction false} SavedListDelivered(list: seq<Layer>, pool: set<int>)
    requires PlainWords(list)
    ensures Deliver(SaveList(list, pool)) == Some(ListEvents(list, pool))
    decreases list
  {
    if list != [] {
      SavedLayerDelivered(list[0], pool);
      SavedListDelivered(list[1..], pool);
      DeliverConcat(SaveLayer(list[0], pool), SaveList(list[1..], pool), LayerEvents(list[0], pool),
                    ListEvents(list[1..], pool));
    }
  }

  lemma {:induction false} SavedLayerDelivered(l: Layer, pool: set<int>)
    requires PlainWordsIn(l)
    ensures Deliver(SaveLayer(l, pool)) == Some(LayerEvents(l, pool))
    decreases l
  {
    if !l.hidden {
      LayerHeadDelivered(l, pool);
      OperationDelivered(l.op);
      OperationDelivered(l.blender);
      SavedListDelivered(l.sublayers, pool);
      SavedListDelivered(l.imaps, pool);
      SavedListDelivered(l.omaps, pool);
      KindsAreLowerCase();
      SublistDelivered("child", SaveList(l.sublayers, pool), ListEvents(l.sublayers, pool));
      SublistDelivered("imap", SaveList(l.imaps, pool), ListEvents(l.imaps, pool));
      SublistDelivered("omap", SaveList(l.omaps, pool), ListEvents(l.omaps, pool));
      DeliverOne(Close("layer"), Close("layer"));
      PiecesDelivered([Open("layer", LayerAttrs(l, Escape(l.name), pool))], OperationRaw(l.op), OperationRaw(l.blender),
                      Sublist("child", SaveList(l.sublayers, pool)), Sublist("imap", SaveList(l.imaps, pool)),
                      Sublist("omap", SaveList(l.omaps, pool)), [Close("layer")],
                      [Open("layer", LayerAttrs(l, Normalize(l.name), pool))], OperationEvents(l.op),
                      OperationEvents(l.blender),
                      Sublist("child", ListEvents(l.sublayers, pool)), Sublist("imap", ListEvents(l.imaps, pool)),
                      Sublist("omap", ListEvents(l.omaps, pool)), [Close("layer")]);
    }
  }

  lemma {:induction false} PiecesDelivered(h: seq<Event>, a: seq<Event>, b: seq<Event>, c: seq<Event>, d: seq<Event>,
                                           e: seq<Event>, z: seq<Event>, h': seq<Event>, a': seq<Event>, b': seq<Event>,
                                           c': seq<Event>, d': seq<Event>, e': seq<Event>, z': seq<Event>)
    requires Deliver(h) == Some(h') && Deliver(a) == Some(a') && Deliver(b) == Some(b') && Deliver(c) == Some(c')
    requires Deliver(d) == Some(d') && Deliver(e) == Some(e') && Deliver(z) == Some(z')
    ensures Deliver(h + a + b + c + d + e + z) == Some(h' + a' + b' + c' + d' + e' + z')
  {
    DeliverConcat(h, a, h', a');
    DeliverConcat(h + a, b, h' + a', b');
    DeliverConcat(h + a + b, c, h' + a' + b', c');
    DeliverConcat(h + a + b + c, d, h' + a' + b' + c', d');
    DeliverConcat(h + a + b + c + d, e, h' + a' + b' + c' + d', e');
    DeliverConcat(h + a + b + c + d + e, z, h' + a' + b' + c' + d' + e', z');
  }
}
