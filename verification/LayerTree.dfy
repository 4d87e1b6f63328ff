/** The layer tree shared by the layer manager, the file printer and the file loader.

    A layer owns three ordered lists of layers: its sublayers and its intensity and opacity
    maps.  The pool index of a layer is its id; other layers refer to it by that number only. */
module LayerTree {

  /** An explicit input: a layer id, the index of one of its images, and whether the blended
      image is wanted instead. */
  datatype Input = Input(layer: int, image: int, blended: bool)

  /** Fills up with empty inputs to position n and sets that one. */
  function SetInput(inputs: seq<Input>, n: nat, i: Input): seq<Input>
    decreases n - |inputs|
  {
    if n < |inputs| then inputs[n := i]
    else if n == |inputs| then inputs + [i]
    else SetInput(inputs + [Input(-1, -1, true)], n, i)
  }

  /** The loop that does it. */
  method AssignInput(inputs: seq<Input>, n: nat, i: Input) returns (r: seq<Input>)
    ensures r == SetInput(inputs, n, i)
  {
    r := inputs;
    while |r| <= n
      invariant SetInput(r, n, i) == SetInput(inputs, n, i)
      decreases n + 1 - |r|
    {
      if |r| == n {
        assert (r + [Input(-1, -1, true)])[n := i] == r + [i];
      }
      r := r + [Input(-1, -1, true)];
    }
    r := r[n := i];
  }

  datatype Property = Property(name: string, text: string)

  /** The settings of an operation or blender: its type, its properties and its map flag. */
  datatype Operation = Operation(kind: string, props: seq<Property>, mapFlag: bool)

  datatype Layer = Layer(
    id: int,
    name: string,
    enabled: bool,
    expanded: bool,
    normal: bool,
    hidden: bool,
    op: Operation,
    blender: Operation,
    inputs: seq<Input>,
    sublayers: seq<Layer>,
    imaps: seq<Layer>,
    omaps: seq<Layer>)

  /** The ids of all layers of the given lists, at any depth. */
  function Ids(list: seq<Layer>): set<int> {
    if list == [] then {} else IdsOf(list[0]) + Ids(list[1..])
  }

  function IdsOf(l: Layer): set<int> {
    {l.id} + Ids(l.sublayers) + Ids(l.imaps) + Ids(l.omaps)
  }

  /** All layers of the lists, each after the layers it owns. */
  function Flatten(list: seq<Layer>): seq<Layer> {
    if list == [] then [] else Expand(list[0]) + Flatten(list[1..])
  }

  /** A layer and all layers inside it: sublayers, intensity maps, opacity maps, itself. */
  function Expand(l: Layer): seq<Layer> {
    Flatten(l.sublayers) + Flatten(l.imaps) + Flatten(l.omaps) + [l]
  }

  /** The ids at the top level of one list. */
  function TopIds(list: seq<Layer>): set<int> {
    set i | 0 <= i < |list| :: list[i].id
  }

  /** No id occurs twice in the tree. */
  predicate Distinct(list: seq<Layer>) {
    list != [] ==>
      && DistinctLayer(list[0])
      && Distinct(list[1..])
      && IdsOf(list[0]) !! Ids(list[1..])
  }

  predicate DistinctLayer(l: Layer) {
    && Distinct(l.sublayers) && Distinct(l.imaps) && Distinct(l.omaps)
    && l.id !in Ids(l.sublayers) + Ids(l.imaps) + Ids(l.omaps)
    && Ids(l.sublayers) !! Ids(l.imaps) !! Ids(l.omaps)
  }

  lemma {:induction false} TopIdsAreIds(list: seq<Layer>)
    ensures TopIds(list) <= Ids(list)
  {
    if list != [] {
      TopIdsAreIds(list[1..]);
      forall i | 0 <= i < |list| ensures list[i].id in Ids(list) {
        if i > 0 {
          assert list[i] == list[1..][i - 1];
        }
      }
    }
  }
}
