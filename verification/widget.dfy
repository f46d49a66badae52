/** The embeddable chat widget: a floating button that opens an iframe with
    the embedded chat page, configured by the embedding site. */
module ChatWidget {
  import opened Common

  const DefaultTheme: string := "light"
  const DefaultModel: string := "llama3"
  const DefaultPosition: string := "bottom-right"
  const DefaultButtonColor: string := "#2563eb"

  /** The options an embedding site passes; any of them may be missing. */
  datatype WidgetConfig = WidgetConfig(apiKey: Option<string>, baseUrl: Option<string>,
                                       theme: Option<string>, model: Option<string>,
                                       position: Option<string>, buttonColor: Option<string>)

  /** The text JavaScript puts in a template for a value that may be missing. */
  function Interpolated(v: Option<string>): string
  {
    if v.Some? then v.value else "undefined"
  }

  /** Which screen corner the button and the chat window stick to. */
  datatype VerticalEdge = Bottom | Top
  datatype HorizontalEdge = Right | Left
  datatype Placement = Placement(vertical: VerticalEdge, horizontal: HorizontalEdge)

  /** The corner named by a position: bottom when it mentions `bottom`,
      otherwise top; right when it mentions `right`, otherwise left. */
  function PlacementOf(position: string): (p: Placement)
    ensures p.vertical == Bottom <==> Contains(position, "bottom")
    ensures p.horizontal == Right <==> Contains(position, "right")
  {
    Placement(if Contains(position, "bottom") then Bottom else Top,
              if Contains(position, "right") then Right else Left)
  }

  /** The default position is the bottom-right corner, and `top-left` is
      the opposite one. */
  lemma PlacementExamples()
    ensures PlacementOf(DefaultPosition) == Placement(Bottom, Right)
    ensures PlacementOf("top-left") == Placement(Top, Left)
  {
    assert StartsWith(DefaultPosition[0..], "bottom");
    assert StartsWith(DefaultPosition[7..], "right");
    var s := "top-left";
    forall i | 0 <= i <= |s| - |"bottom"|
      ensures !StartsWith(s[i..], "bottom")
    {
      assert s[i..][0] != 'b';
    }
    forall i | 0 <= i <= |s| - |"right"|
      ensures !StartsWith(s[i..], "right")
    {
      assert s[i..][0] != 'r';
    }
  }

  /** The query string of the iframe: the key, theme and model inserted as
      they are, without URL encoding. */
  function Query(key: string, theme: string, model: string): (q: string)
    ensures q == Join(["userKey=" + key, "theme=" + theme, "model=" + model], '&')
  {
    var p0, p1, p2 := "userKey=" + key, "theme=" + theme, "model=" + model;
    assert Join([p2], '&') == p2 by { assert [p2][..0] == []; }
    JoinCons(p1, [p2], '&');
    JoinCons(p0, [p1, p2], '&');
    assert [p0] + [p1, p2] == [p0, p1, p2] && [p1] + [p2] == [p1, p2];
    "userKey=" + key + "&theme=" + theme + "&model=" + model
  }

  /** The iframe's address: the embedded chat page under the base URL. */
  function IframeSrc(baseUrl: string, key: string, theme: string, model: string): (src: string)
    ensures src == baseUrl + "/embed/chat?" + Query(key, theme, model)
  {
    baseUrl + "/embed/chat?userKey=" + key + "&theme=" + theme + "&model=" + model
  }

  /** When none of the values contains `&`, the query splits back into
      exactly the three parameters; a value with `&` in it would add a
      parameter of its own, since nothing is encoded. */
  lemma QueryReadsBack(key: string, theme: string, model: string)
    requires Lacks(key, '&') && Lacks(theme, '&') && Lacks(model, '&')
    ensures Split(Query(key, theme, model), '&') == ["userKey=" + key, "theme=" + theme, "model=" + model]
  {
    var parts := ["userKey=" + key, "theme=" + theme, "model=" + model];
    assert forall i :: 0 <= i < |parts| ==> Lacks(parts[i], '&') by {
      assert Lacks("userKey=", '&') && Lacks("theme=", '&') && Lacks("model=", '&');
    }
    JoinSplit(parts, '&');
  }

  /** The button's text: a close mark while open, a speech bubble while closed. */
  function ButtonLabel(isOpen: bool): string
  {
    if isOpen then "\U{2715}" else "\U{1F4AC}"
  }

  class Widget {
    const apiKey: Option<string>
    const baseUrl: string
    const theme: string
    const model: string
    const position: string
    const buttonColor: string
    const src: string
    var isOpen: bool
    var messages: seq<string>
    /** Whether the chat window carries the `open` class (is shown). */
    var windowShown: bool
    var buttonText: string

    /** The window is shown and the button labelled as the state says. */
    ghost predicate Valid()
      reads this
    {
      windowShown == isOpen && buttonText == ButtonLabel(isOpen)
    }

    /** A widget from a configuration: missing options fall back to their
        defaults (the base URL to the page's own origin), and it starts
        closed with no messages. */
    constructor (config: WidgetConfig, origin: string)
      ensures apiKey == config.apiKey && baseUrl == OrDefault(config.baseUrl, origin)
      ensures theme == OrDefault(config.theme, DefaultTheme) && model == OrDefault(config.model, DefaultModel)
      ensures position == OrDefault(config.position, DefaultPosition)
      ensures buttonColor == OrDefault(config.buttonColor, DefaultButtonColor)
      ensures src == IframeSrc(baseUrl, Interpolated(apiKey), theme, model)
      ensures !isOpen && messages == [] && Valid()
    {
      apiKey := config.apiKey;
      baseUrl := OrDefault(config.baseUrl, origin);
      theme := OrDefault(config.theme, DefaultTheme);
      model := OrDefault(config.model, DefaultModel);
      position := OrDefault(config.position, DefaultPosition);
      buttonColor := OrDefault(config.buttonColor, DefaultButtonColor);
      src := IframeSrc(OrDefault(config.baseUrl, origin), Interpolated(config.apiKey),
                       OrDefault(config.theme, DefaultTheme), OrDefault(config.model, DefaultModel));
      isOpen := false;
      messages := [];
      windowShown := false;
      buttonText := ButtonLabel(false);
    }

    method Open()
      modifies this
      ensures isOpen && Valid() && messages == old(messages)
    {
      windowShown := true;
      buttonText := ButtonLabel(true);
      isOpen := true;
    }

    method Close()
      modifies this
      ensures !isOpen && Valid() && messages == old(messages)
    {
      windowShown := false;
      buttonText := ButtonLabel(false);
      isOpen := false;
    }

    /** A click on the button. */
    method Toggle()
      modifies this
      ensures isOpen == !old(isOpen) && Valid() && messages == old(messages)
    {
      if isOpen {
        Close();
      } else {
        Open();
      }
    }

    /** A key pressed anywhere on the page: Escape closes an open widget;
        anything else, or Escape on a closed widget, changes nothing. */
    method KeyDown(key: string)
      modifies this
      ensures key == "Escape" && old(isOpen) ==> !isOpen && Valid()
      ensures !(key == "Escape" && old(isOpen)) ==>
                isOpen == old(isOpen) && windowShown == old(windowShown) && buttonText == old(buttonText)
      ensures messages == old(messages)
    {
      if key == "Escape" && isOpen {
        Close();
      }
    }
  }

  /** The `data-customchatai-*` attributes of the script tag; a missing
      attribute is None. */
  datatype ScriptAttributes = ScriptAttributes(key: Option<string>, url: Option<string>,
                                               theme: Option<string>, model: Option<string>,
                                               position: Option<string>, color: Option<string>)

  /** The configuration the script tag's attributes give. */
  function ConfigOf(attrs: ScriptAttributes): WidgetConfig
  {
    WidgetConfig(attrs.key, attrs.url, attrs.theme, attrs.model, attrs.position, attrs.color)
  }

  /** On page load: a widget is created from the script tag's attributes,
      but only when the tag is found and carries a non-empty key. */
  method AutoInitialize(script: Option<ScriptAttributes>, origin: string) returns (w: Option<Widget>)
    ensures w.Some? <==> script.Some? && script.value.key.Some? && script.value.key.value != ""
    ensures w.Some? ==> fresh(w.value) && w.value.apiKey == script.value.key
    ensures w.Some? ==> !w.value.isOpen && w.value.messages == [] && w.value.Valid()
    ensures w.Some? ==> w.value.src == IframeSrc(w.value.baseUrl, Interpolated(w.value.apiKey),
                                                 w.value.theme, w.value.model)
    ensures w.Some? ==> w.value.theme == OrDefault(script.value.theme, DefaultTheme)
                        && w.value.model == OrDefault(script.value.model, DefaultModel)
                        && w.value.baseUrl == OrDefault(script.value.url, origin)
                        && w.value.position == OrDefault(script.value.position, DefaultPosition)
                        && w.value.buttonColor == OrDefault(script.value.color, DefaultButtonColor)
  {
    if script.Some? && script.value.key.Some? && script.value.key.value != "" {
      var widget := new Widget(ConfigOf(script.value), origin);
      return Some(widget);
    }
    return None;
  }
}
