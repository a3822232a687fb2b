/** The application state: the colour theme, the text typed into the input
    box, the value parsed from it, the error message under the box, and the
    diagram of the preview pane that follows the parsed value. */
module App {
  import opened JsonValue
  import opened Preview

  const LIGHT := "light"
  const DARK := "dark"

  /** The message shown when the input is not valid JSON. */
  const INVALID_JSON := "Invalid JSON. Please check your input."

  /** The theme the toggle switches to: dark after light, light after anything
      else. */
  function Toggled(theme: string): (r: string)
    ensures r == LIGHT || r == DARK
    ensures r == DARK <==> theme == LIGHT
  {
    if theme == LIGHT then DARK else LIGHT
  }

  /** Toggling twice gives back a theme the toggle can produce. */
  lemma ToggleTwice(theme: string)
    requires theme == LIGHT || theme == DARK
    ensures Toggled(Toggled(theme)) == theme
    ensures Toggled(theme) != theme
  {
  }

  /** The parsed value and the error message a press of "Generate" leaves
      behind, for the text in the box: the parsed value and no message when
      the text parses, `null` and the fixed message when it does not. */
  function Outcome(parse: string -> Option<Json>, text: string): (r: (Json, string))
    ensures r.1 == "" <==> parse(text).Some?
    ensures parse(text).Some? ==> r.0 == parse(text).value
    ensures parse(text).None? ==> r == (Null, INVALID_JSON)
  {
    match parse(text)
    case Some(parsed) => (parsed, "")
    case None => (Null, INVALID_JSON)
  }

  /** The state of the app component. */
  class Session {
    var theme: string
    var jsonData: string
    var parsedData: Json
    var error: string
    /** The preview pane, which holds the diagram of `parsedData`. */
    const flow: Flow

    /** The theme is one of the two, an error message is only ever up while
        the parsed value is `null`, and whenever the pane shows a diagram
        (the parsed value is truthy) it is the tree of the parsed value. */
    predicate Valid()
      reads this, flow
    {
      && (theme == LIGHT || theme == DARK)
      && (error == "" || (error == INVALID_JSON && parsedData == Null))
      && flow.Valid()
      && Synced()
    }

    /** The diagram held by the pane is the tree of a truthy parsed value. */
    predicate Synced()
      reads this, flow
    {
      Truthy(parsedData) ==> Graph(flow.nodes, flow.edges) == BuildTree(parsedData, 0, ROOT_ID)
    }

    /** Light theme, empty box, nothing parsed, no message, empty diagram. */
    constructor ()
      ensures Valid()
      ensures theme == LIGHT && jsonData == "" && parsedData == Null && error == ""
      ensures flow.nodes == [] && flow.edges == []
      ensures fresh(flow)
    {
      theme := LIGHT;
      jsonData := "";
      parsedData := Null;
      error := "";
      flow := new Flow();
    }

    /** The input box reports new text. */
    method SetJsonData(text: string)
      requires Valid()
      modifies this
      ensures Valid()
      ensures jsonData == text
      ensures theme == old(theme) && parsedData == old(parsedData) && error == old(error)
    {
      jsonData := text;
    }

    /** The toggle flips the theme and nothing else. */
    method ToggleTheme()
      requires Valid()
      modifies this
      ensures Valid()
      ensures theme == Toggled(old(theme)) && theme != old(theme)
      ensures jsonData == old(jsonData) && parsedData == old(parsedData) && error == old(error)
    {
      theme := Toggled(theme);
    }

    /** "Generate": parse the text in the box; on success keep the value and
        clear the message, on failure show the message and forget the value.
        It never fails itself, and the theme and the text stay as they are.
        The pane's diagram is brought up to date only by its effect, which
        `Generate` runs next. */
    method HandleGenerate(parse: string -> Option<Json>)
      requires Valid()
      modifies this
      ensures theme == LIGHT || theme == DARK
      ensures error == "" || (error == INVALID_JSON && parsedData == Null)
      ensures (parsedData, error) == Outcome(parse, jsonData)
      ensures theme == old(theme) && jsonData == old(jsonData)
    {
      var result := parse(jsonData);
      match result {
        case Some(parsed) =>
          parsedData := parsed;
          error := "";
        case None =>
          error := INVALID_JSON;
          parsedData := Null;
      }
    }

    /** "Generate" followed by the preview's effect on the new parsed value.
        A value that parses and is truthy replaces the diagram by its tree;
        text that does not parse, or parses to a falsy value (`0`, `false`,
        `""`, `null`), keeps the previous diagram in the pane's state, where it
        is not shown, since the pane shows a diagram only for a truthy value. */
    method Generate(parse: string -> Option<Json>)
      requires Valid()
      modifies this, flow
      ensures Valid()
      ensures (parsedData, error) == Outcome(parse, jsonData)
      ensures theme == old(theme) && jsonData == old(jsonData)
      ensures Truthy(parsedData) ==> Graph(flow.nodes, flow.edges) == BuildTree(parsedData, 0, ROOT_ID)
      ensures !Truthy(parsedData) ==> flow.nodes == old(flow.nodes) && flow.edges == old(flow.edges)
      ensures parse(jsonData).None? ==> flow.nodes == old(flow.nodes) && flow.edges == old(flow.edges)
    {
      HandleGenerate(parse);
      flow.OnParsedData(parsedData);
    }
  }
}
