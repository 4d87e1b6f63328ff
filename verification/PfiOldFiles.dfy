/** Files written before version 2, and markup that the loader does not know. */
module PfiOldFiles {
  import opened Basics
  import opened LayerTree
  import opened DecimalText
  import opened XmlText
  import opened PfiWriter
  import opened PfiReader
  import opened PfiRoundTrip

  /** These properties of an operation were moved to its blender. */
  predicate Moved(name: string) {
    name == "opacity" || name == "blend_mode"
  }

  function OnlyMoved(props: seq<Property>, moved: bool): seq<Property> {
    if props == [] then []
    else (if Moved(props[0].name) == moved then [props[0]] else []) + OnlyMoved(props[1..], moved)
  }

  /** The document with these values laid over those of an operation and of its blender. */
  function Overlaid(doc: Doc, x: int, op: Operation, blender: Operation, props: seq<Property>): Doc
    requires x in doc.pool
  {
    doc.(pool := doc.pool[x := doc.pool[x].(
      op := Some(op.(props := Overlay(op.props, OnlyMoved(props, false)))),
      blender := Some(blender.(props := Overlay(blender.props, OnlyMoved(props, true)))))])
  }

  lemma OverlaidNext(doc: Doc, x: int, op: Operation, blender: Operation, props: seq<Property>, next: Doc)
    requires x in doc.pool && props != []
    requires var p := props[0];
             var o := if Moved(p.name) then op else op.(props := Overlay(op.props, [p]));
             var b := if Moved(p.name) then blender.(props := Overlay(blender.props, [p])) else blender;
             next == doc.(pool := doc.pool[x := doc.pool[x].(op := Some(o), blender := Some(b))])
    ensures var p := props[0];
            var o := if Moved(p.name) then op else op.(props := Overlay(op.props, [p]));
            var b := if Moved(p.name) then blender.(props := Overlay(blender.props, [p])) else blender;
            Overlaid(next, x, o, b, props[1..]) == Overlaid(doc, x, op, blender, props)
  {
    var p, rest, moved := props[0], props[1..], Moved(props[0].name);
    OverlayNext(op.props, p, OnlyMoved(rest, false));
    OverlayNext(blender.props, p, OnlyMoved(rest, true));
    assert OnlyMoved(props, moved) == [p] + OnlyMoved(rest, moved);
    assert OnlyMoved(props, !moved) == [] + OnlyMoved(rest, !moved) == OnlyMoved(rest, !moved);
    TwicePut(doc.pool, x, next.pool[x], Overlaid(doc, x, op, blender, props).pool[x]);
  }

  /** Before version 2 the opacity and the blend mode of an operation are read into the blender of its
      layer, and all other properties into the operation. */
  lemma {:induction false} OldPropsLoad(r: Registry, s: Loader, x: int, op: Operation, blender: Operation,
                                        props: seq<Property>)
    requires s.version < 2 && s.layer == Some(x) && s.op == Some(OpOf(x))
    requires OperationAt(s.doc, OpOf(x)) == Some(op) && OperationAt(s.doc, BlenderOf(x)) == Some(blender)
    ensures Load(r, s, PropsEvents(props)) == s.(doc := Overlaid(s.doc, x, op, blender, props))
    decreases |props|
  {
    if props == [] {
      assert s.doc.pool[x := s.doc.pool[x]] == s.doc.pool;
    } else {
      var p, rest := props[0], props[1..];
      var text, moved := Normalize(p.text), Moved(p.name);
      var o := if moved then op else op.(props := Overlay(op.props, [p]));
      var b := if moved then blender.(props := Overlay(blender.props, [p])) else blender;
      var t := s.(doc := s.doc.(pool := s.doc.pool[x := s.doc.pool[x].(op := Some(o), blender := Some(b))]));
      OnePropertyLoads(r, s, x, op, blender, p);
      LoadConcat(r, s, PropertyEvents(p.name, text), PropsEvents(rest));
      OldPropsLoad(r, t, x, o, b, rest);
      OverlaidNext(s.doc, x, op, blender, props, t.doc);
    }
  }

  lemma {:induction false} OverlayNext(base: seq<Property>, p: Property, rest: seq<Property>)
    ensures Overlay(base, [p] + rest) == Overlay(Overlay(base, [p]), rest)
  {
    assert ([p] + rest)[1..] == rest && [p][1..] == [];
  }

  lemma {:induction false} OnePropertyLoads(r: Registry, s: Loader, x: int, op: Operation, blender: Operation,
                                            p: Property)
    requires s.version < 2 && s.layer == Some(x) && s.op == Some(OpOf(x))
    requires OperationAt(s.doc, OpOf(x)) == Some(op) && OperationAt(s.doc, BlenderOf(x)) == Some(blender)
    ensures var o := if Moved(p.name) then op else op.(props := Overlay(op.props, [p]));
            var b := if Moved(p.name) then blender.(props := Overlay(blender.props, [p])) else blender;
            Load(r, s, PropertyEvents(p.name, Normalize(p.text)))
            == s.(doc := s.doc.(pool := s.doc.pool[x := s.doc.pool[x].(op := Some(o), blender := Some(b))]))
  {
    var text := Normalize(p.text);
    var attrs := [Attr("name", p.name), Attr("value", text)];
    TextAt(attrs, 0, "name", "");
    TextAt(attrs, 1, "value", "");
    var one := PropertyEvents(p.name, text);
    var t := OnOpen(r, s, "property", attrs);
    assert one[0] == Open("property", attrs) && one[1..] == [Close("property")] && one[1..][1..] == [];
    assert Load(r, s, one) == Load(r, t, one[1..]) == t;
    assert [p][1..] == [];
    assert s.doc.pool[x := s.doc.pool[x]] == s.doc.pool;
  }

  /** Before version 2 a group carried no operation element: it is given a buffer and a blender when it
      starts, and properties that follow go to the buffer.  Any other layer starts without an operation. */
  lemma OldGroupGetsBuffer(r: Registry, s: Loader, attrs: seq<Attr>)
    requires s.place.Some? && Exists(s.doc, s.place.value)
    ensures var id, t, plain := FreshId(s.doc.pool.Keys), OpenLayer(r, s, attrs), NewLayer(s, attrs);
            && id in plain.doc.pool
            && if s.version < 2 && !Flag(attrs, "normal") && r.defaults("buffer").Some? then
                 t == plain.(op := Some(OpOf(id)),
                             doc := plain.doc.(pool := plain.doc.pool[id := plain.doc.pool[id].(
                               op := Some(Operation("buffer", r.defaults("buffer").value, s.isMap)),
                               blender := Some(Operation("blender", r.blender, false)))]))
               else if s.version < 2 && !Flag(attrs, "normal") then
                 t == plain.(doc := SetMapFlag(plain.doc, s.op, s.isMap))
               else t == plain && plain.op == s.op && plain.doc.pool[id].op == None
  {
    var id, plain := FreshId(s.doc.pool.Keys), NewLayer(s, attrs);
    assert plain.isMap == s.isMap && plain.op == s.op;
    if r.defaults("buffer").Some? {
      BufferIsMade(r, plain, id);
    }
  }

  lemma BufferIsMade(r: Registry, s: Loader, id: int)
    requires id in s.doc.pool && r.defaults("buffer").Some?
    ensures OldGroup(r, s, id)
         == s.(op := Some(OpOf(id)),
               doc := s.doc.(pool := s.doc.pool[id := s.doc.pool[id].(
                 op := Some(Operation("buffer", r.defaults("buffer").value, s.isMap)),
                 blender := Some(Operation("blender", r.blender, false)))]))
  {
    var first := s.doc.pool[id].(op := Some(Operation("buffer", r.defaults("buffer").value, false)),
                                 blender := Some(Operation("blender", r.blender, false)));
    TwicePut(s.doc.pool, id, first, first.(op := Some(Operation("buffer", r.defaults("buffer").value, s.isMap))));
  }

  /** Elements that the loader does not know change nothing; a list of an unknown type is not entered. */
  lemma {:induction false} UnknownIsIgnored(r: Registry, s: Loader, element: string, attrs: seq<Attr>)
    requires element !in ["image", "preset", "layer", "sublayers", "operation", "property"]
    ensures OnOpen(r, s, element, attrs) == s && OnClose(s, element) == s
    ensures TextOf(attrs, "type", "") !in ["imap", "omap", "child"] && s.layer.Some? ==>
              OnOpen(r, s, "sublayers", attrs) == s.(layer := None)
  {
  }

  /** Behind the end of the outermost list no list is open. */
  lemma NothingAfterLastList(s: Loader)
    requires |s.slots| <= 1
    ensures OnClose(s, "sublayers") == s.(slots := [], place := None, layer := TopOf(s.layers))
  {
  }
}
