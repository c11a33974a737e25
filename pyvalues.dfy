/**
  The Python values the assistant passes around: JSON documents, the
  stand-ins for plotly figures and pandas dataframes, and the runtime value
  an evaluated expression produces.  Figures and dataframes are opaque to the
  core; their fields only make distinct figures and tables distinct values.
 */
module PyValues {
  import opened PyText

  datatype Option<+T> = None | Some(value: T) {
    function GetOr(default: T): T {
      match this
      case Some(v) => v
      case None => default
    }
  }

  /** A parsed JSON document (numbers restricted to integers). */
  datatype Json =
    | JNull
    | JBool(b: bool)
    | JNumber(n: int)
    | JString(s: string)
    | JArray(items: seq<Json>)
    | JObject(fields: map<string, Json>)

  /** A plotly `go.Figure`: its traces and its layout. */
  datatype Figure = Figure(data: seq<Json>, layout: Json)

  /** A pandas `DataFrame`: column names and rows of cells. */
  datatype Frame = Frame(columns: seq<string>, rows: seq<seq<Json>>)

  /** The runtime shapes a value can have, as far as the core inspects them.
      `DictV` is a dict nested inside another value, which the core never
      updates in place. */
  datatype Value =
    | FigureV(fig: Figure)
    | ListV(items: seq<Value>)
    | FrameV(frame: Frame)
    | StrV(s: string)
    | IntV(n: int)
    | BoolV(b: bool)
    | NoneV
    | DictV(entries: map<string, Value>)

  /** `all(isinstance(item, go.Figure) for item in items)`; true of the empty list. */
  predicate AllFigures(items: seq<Value>) {
    forall i :: 0 <= i < |items| ==> items[i].FigureV?
  }

  /** `all(isinstance(item, str) for item in items)`; true of the empty list. */
  predicate AllStrings(items: seq<Value>) {
    forall i :: 0 <= i < |items| ==> items[i].StrV?
  }

  /** The figures held by a list whose items are all figures, in order. */
  function Figures(items: seq<Value>): (figs: seq<Figure>)
    requires AllFigures(items)
    ensures |figs| == |items|
    ensures forall i :: 0 <= i < |items| ==> items[i] == FigureV(figs[i])
  {
    if items == [] then [] else [items[0].fig] + Figures(items[1..])
  }

  /** The list value that holds the given figures, in order. */
  function FigureList(figs: seq<Figure>): (v: Value)
    ensures v.ListV? && |v.items| == |figs| && AllFigures(v.items)
    ensures forall i :: 0 <= i < |figs| ==> v.items[i] == FigureV(figs[i])
  {
    ListV(seq(|figs|, i requires 0 <= i < |figs| => FigureV(figs[i])))
  }

  /** Wrapping the figures of an all-figure list in a list gives back that list. */
  lemma {:induction false} FigureListOfFigures(items: seq<Value>)
    requires AllFigures(items)
    ensures FigureList(Figures(items)) == ListV(items)
  {
    var figs := Figures(items);
    var v := FigureList(figs);
    assert v.items == items by {
      forall i | 0 <= i < |items| ensures v.items[i] == items[i] { }
    }
  }

  /** `str(v)`: a string is itself, integers and booleans are written as Python
      does, None is "None"; other values use the supplied rendering. */
  function Str(v: Value, repr: Value -> string): string {
    match v
    case StrV(s) => s
    case IntV(n) => IntToDecimal(n)
    case BoolV(b) => if b then "True" else "False"
    case NoneV => "None"
    case _ => repr(v)
  }
}
