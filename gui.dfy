/**
 * The GUI: elements (plain text, menus, textboxes) registered in 16 ordered
 * layers. Pointers to elements are `Handle` values; the registry never holds a
 * null handle in this model because no code path of the game inserts one.
 */
module Gui {
  import opened Common
  import opened Geometry
  import opened Tags
  import opened Resources

  const MaxGuiLayers := 16

  /** SDL_Color. */
  datatype Color = Color(r: Byte, g: Byte, b: Byte, a: Byte)

  const Yellow := Color(255, 255, 0, 255)
  const White := Color(255, 255, 255, 255)
  const Red := Color(255, 0, 0, 255)

  /** The SDL key codes the game reacts to. */
  const KeyReturn := 13
  const KeyTab := 9
  const KeyUp := 1073741906
  const KeyDown := 1073741905
  const KeyLShift := 1073742049

  /**
   * The GUIElement part every widget has: its name and layer (fixed at
   * construction), its tags and its destination rectangle. Fields the
   * constructor does not set start with an arbitrary value.
   */
  class GuiElement {
    const elementName: string
    const guiLayer: int
    const tagSet: Taggable
    var destinationRect: FRect

    constructor (layer: int, name: string)
      ensures elementName == name && guiLayer == layer
      ensures fresh(tagSet) && tagSet.tags == [GUIElementTag, Renderable]
    {
      var t := new Taggable();
      t.AddTag(GUIElementTag);
      t.AddTag(Renderable);
      elementName, guiLayer, tagSet := name, layer, t;
    }
  }

  /** A Text element: a string and its colour; font and texture handling are not modelled. */
  class Text {
    const base: GuiElement
    var text: string
    var textColor: Color

    constructor (layer: int, name: string)
      ensures fresh(base) && fresh(base.tagSet)
      ensures base.elementName == name && base.guiLayer == layer
      ensures base.tagSet.tags == [GUIElementTag, Renderable, "Text", Renderable]
      ensures text == ""
    {
      var b := new GuiElement(layer, name);
      b.tagSet.AddTag("Text");
      b.tagSet.AddTag(Renderable);
      base, text := b, "";
    }

    method SetText(newText: string)
      modifies this
      ensures text == newText && textColor == old(textColor)
    {
      text := newText;
    }

    method SetTextColor(newColor: Color)
      modifies this
      ensures textColor == newColor && text == old(text)
    {
      textColor := newColor;
    }
  }

  /** A registered element pointer. */
  datatype Handle = TextElement(text: Text) | MenuElement(menu: BaseMenu) | TextboxElement(textbox: Textbox)

  function Base(h: Handle): GuiElement
  {
    match h
    case TextElement(t) => t.base
    case MenuElement(m) => m.base
    case TextboxElement(b) => b.base
  }

  function Name(h: Handle): string
  {
    Base(h).elementName
  }

  /** The position of the first element named `name`, or |hs| when there is none. */
  function IndexOfName(hs: seq<Handle>, name: string): (i: nat)
    ensures i <= |hs|
    ensures i < |hs| ==> Name(hs[i]) == name
    ensures forall j :: 0 <= j < i ==> Name(hs[j]) != name
  {
    if |hs| == 0 then 0
    else if Name(hs[0]) == name then 0
    else 1 + IndexOfName(hs[1..], name)
  }

  /** The first element named `name`, if any. */
  function FirstNamed(hs: seq<Handle>, name: string): (r: Option<Handle>)
    ensures r.None? <==> forall j :: 0 <= j < |hs| ==> Name(hs[j]) != name
    ensures r.Some? ==> r.value == hs[IndexOfName(hs, name)]
  {
    var i := IndexOfName(hs, name);
    if i < |hs| then Some(hs[i]) else None
  }

  /** The list with its first element named `name` erased. */
  function RemoveNamed(hs: seq<Handle>, name: string): seq<Handle>
  {
    var i := IndexOfName(hs, name);
    if i < |hs| then hs[..i] + hs[i + 1..] else hs
  }

  /** Erasing by name drops exactly the first match and keeps the rest in order. */
  lemma RemoveNamedShape(hs: seq<Handle>, name: string)
    ensures FirstNamed(hs, name).None? ==> RemoveNamed(hs, name) == hs
    ensures FirstNamed(hs, name).Some? ==>
      |RemoveNamed(hs, name)| == |hs| - 1 &&
      multiset(RemoveNamed(hs, name)) + multiset{FirstNamed(hs, name).value} == multiset(hs) &&
      RemoveNamed(hs, name)[..IndexOfName(hs, name)] == hs[..IndexOfName(hs, name)]
  {
    var i := IndexOfName(hs, name);
    if i < |hs| {
      assert hs == hs[..i] + [hs[i]] + hs[i + 1..];
    }
  }

  lemma IndexOfNameIs(hs: seq<Handle>, name: string, i: nat)
    requires i <= |hs| && (i < |hs| ==> Name(hs[i]) == name)
    requires forall j :: 0 <= j < i ==> Name(hs[j]) != name
    ensures IndexOfName(hs, name) == i
  {
  }

  /** The first match in a concatenation is the first match in the front part, else in the back part. */
  lemma {:induction false} FirstNamedAppend(a: seq<Handle>, b: seq<Handle>, name: string)
    ensures FirstNamed(a + b, name) == if FirstNamed(a, name).Some? then FirstNamed(a, name) else FirstNamed(b, name)
  {
    var i := IndexOfName(a, name);
    if i < |a| {
      IndexOfNameIs(a + b, name, i);
    } else {
      var k := IndexOfName(b, name);
      IndexOfNameIs(a + b, name, |a| + k);
    }
  }

  /** r is a layer of minimum size and no earlier layer has that size. */
  predicate IsFirstFreeLayer(elements: seq<seq<Handle>>, r: int)
  {
    0 <= r < |elements| &&
    (forall j :: 0 <= j < |elements| ==> |elements[r]| <= |elements[j]|) &&
    (forall j :: 0 <= j < r ==> |elements[j]| > |elements[r]|)
  }

  /** The first free layer is unique; with every layer empty it is layer 0. */
  lemma FirstFreeLayerUnique(elements: seq<seq<Handle>>, r: int, s: int)
    requires IsFirstFreeLayer(elements, r) && IsFirstFreeLayer(elements, s)
    ensures r == s
  {
    if r < s {
      EarlierLayerIsLarger(elements, r, s);
      assert false;
    } else if s < r {
      EarlierLayerIsLarger(elements, s, r);
      assert false;
    }
  }

  lemma EarlierLayerIsLarger(elements: seq<seq<Handle>>, j: int, r: int)
    requires IsFirstFreeLayer(elements, r) && 0 <= j < r
    ensures |elements[j]| > |elements[r]|
  {
  }

  lemma FirstFreeLayerOfEmpty(elements: seq<seq<Handle>>, r: int)
    requires |elements| > 0 && forall l :: 0 <= l < |elements| ==> elements[l] == []
    requires IsFirstFreeLayer(elements, r)
    ensures r == 0
  {
    assert IsFirstFreeLayer(elements, 0);
    FirstFreeLayerUnique(elements, r, 0);
  }

  /** Sizes and counters are C++ ints, below 2^31. */
  const IntLimit := 0x8000_0000

  /** The value an int holds after conversion to size_t, as in a signed/unsigned comparison. */
  function AsSizeT(i: int): (r: nat)
    ensures 0 <= i < 0x1_0000_0000_0000_0000 ==> r == i
    ensures -0x1_0000_0000_0000_0000 <= i < 0 ==> r == i + 0x1_0000_0000_0000_0000
  {
    i % 0x1_0000_0000_0000_0000
  }

  /** GUI: an array of 16 layers, each a list of element handles drawn and updated in order. */
  class GUI {
    var elements: seq<seq<Handle>>

    ghost predicate Valid()
      reads this
    {
      |elements| == MaxGuiLayers
    }

    constructor ()
      ensures Valid() && forall l :: 0 <= l < MaxGuiLayers ==> elements[l] == []
    {
      elements := seq(MaxGuiLayers, _ => []);
    }

    /** AddElement: appends at the back of the layer; every other layer is unchanged. */
    method AddElement(element: Handle, layer: int)
      requires Valid() && 0 <= layer < MaxGuiLayers
      modifies this
      ensures Valid()
      ensures elements == old(elements)[layer := old(elements)[layer] + [element]]
    {
      elements := elements[layer := elements[layer] + [element]];
    }

    /** RemoveElement by handle: erases the first equal handle in the layer, if any. */
    method RemoveElement(element: Handle, layer: int)
      requires Valid() && 0 <= layer < MaxGuiLayers
      modifies this
      ensures Valid()
      ensures elements == old(elements)[layer := RemoveFirst(old(elements)[layer], element)]
    {
      if element in elements[layer] {
        var i := IndexOf(elements[layer], element);
        elements := elements[layer := elements[layer][..i] + elements[layer][i + 1..]];
      }
    }

    /** RemoveElement by name: walks the layer and erases the first element with that name. */
    method RemoveElementNamed(elementName: string, layer: int)
      requires Valid() && 0 <= layer < MaxGuiLayers
      modifies this
      ensures Valid()
      ensures elements == old(elements)[layer := RemoveNamed(old(elements)[layer], elementName)]
    {
      var list := elements[layer];
      var i := 0;
      while i < |list|
        invariant 0 <= i <= |list|
        invariant forall j :: 0 <= j < i ==> Name(list[j]) != elementName
      {
        if Name(list[i]) == elementName {
          IndexOfNameIs(list, elementName, i);
          elements := elements[layer := list[..i] + list[i + 1..]];
          return;
        }
        i := i + 1;
      }
      IndexOfNameIs(list, elementName, |list|);
    }

    /**
     * FindFirstFreeLayer: keeps the smallest layer seen so far. The running best
     * size starts at -1, which the unsigned comparison reads as SIZE_MAX, so layer 0
     * is always taken first.
     */
    method FindFirstFreeLayer() returns (bestLayer: int)
      requires Valid() && forall l :: 0 <= l < MaxGuiLayers ==> |elements[l]| < IntLimit
      ensures IsFirstFreeLayer(elements, bestLayer)
    {
      var bestLayerSize := -1;
      bestLayer := 0;
      for i := 0 to MaxGuiLayers
        invariant i == 0 ==> bestLayerSize == -1 && bestLayer == 0
        invariant i > 0 ==> 0 <= bestLayer < i && bestLayerSize == |elements[bestLayer]|
        invariant forall j :: 0 <= j < i ==> |elements[bestLayer]| <= |elements[j]|
        invariant forall j :: 0 <= j < bestLayer ==> |elements[j]| > |elements[bestLayer]|
      {
        if |elements[i]| >= AsSizeT(bestLayerSize) { continue; }
        bestLayer := i;
        bestLayerSize := |elements[i]|;
      }
    }

    /**
     * GetElement: the first element with that name, scanning layers 0..15 in list
     * order. The source falls off the end without a return when nothing matches;
     * that case is None here.
     */
    method GetElement(elementName: string) returns (r: Option<Handle>)
      requires Valid()
      ensures r == FirstNamed(Flatten(elements), elementName)
    {
      var l := 0;
      while l < MaxGuiLayers
        invariant 0 <= l <= MaxGuiLayers
        invariant FirstNamed(Flatten(elements[..l]), elementName).None?
      {
        var layer := elements[l];
        var k := 0;
        while k < |layer|
          invariant 0 <= k <= |layer|
          invariant forall j :: 0 <= j < k ==> Name(layer[j]) != elementName
        {
          if Name(layer[k]) == elementName {
            IndexOfNameIs(layer, elementName, k);
            FoundInLayer(elements, l, elementName);
            return Some(layer[k]);
          }
          k := k + 1;
        }
        FlattenSnoc(elements, l);
        FirstNamedAppend(Flatten(elements[..l]), layer, elementName);
        l := l + 1;
      }
      assert elements[..l] == elements;
      r := None;
    }
  }

  /** When no earlier layer has a match, the first match overall is the first in layer l. */
  lemma FoundInLayer(elements: seq<seq<Handle>>, l: nat, name: string)
    requires l < |elements|
    requires FirstNamed(Flatten(elements[..l]), name).None?
    requires FirstNamed(elements[l], name).Some?
    ensures FirstNamed(Flatten(elements), name) == FirstNamed(elements[l], name)
  {
    assert elements == elements[..l + 1] + elements[l + 1..];
    FlattenAppend(elements[..l + 1], elements[l + 1..]);
    FlattenSnoc(elements, l);
    FirstNamedAppend(Flatten(elements[..l]), elements[l], name);
    FirstNamedAppend(Flatten(elements[..l + 1]), Flatten(elements[l + 1..]), name);
  }

  /** Which callback a menu option holds (the std::function itself is opaque). */
  datatype MenuFunction = MenuFunction(id: nat)

  datatype MenuOption = MenuOption(optionName: string, callback: MenuFunction)

  /** The name of the k-th option Text (counting from 1) of the menu named `menuName`. */
  function OptionName(menuName: string, k: nat): string
  {
    menuName + "_option_" + DecimalString(k)
  }

  /** Option Texts of one menu never share a name. */
  lemma OptionNamesDistinct(menuName: string, i: nat, j: nat)
    requires i != j
    ensures OptionName(menuName, i) != OptionName(menuName, j)
  {
    var prefix := menuName + "_option_";
    if OptionName(menuName, i) == OptionName(menuName, j) {
      assert OptionName(menuName, i)[|prefix|..] == DecimalString(i);
      assert OptionName(menuName, j)[|prefix|..] == DecimalString(j);
      DecimalStringInjective(i, j);
    }
  }

  /**
   * The cursor after a key press with n options: UP steps back and wraps from 0
   * (or below) to n - 1, DOWN steps forward and wraps to 0 once the unsigned view
   * of the new value reaches n, any other key keeps the cursor.
   */
  function NextSelection(keyCode: int, selected: int, n: nat): int
  {
    if keyCode == KeyUp then
      (if selected - 1 <= -1 then n - 1 else selected - 1)
    else if keyCode == KeyDown then
      (if AsSizeT(selected + 1) >= n then 0 else selected + 1)
    else selected
  }

  /** With at least one option, a cursor in range stays in range whatever the key. */
  lemma SelectionStaysInRange(keyCode: int, selected: int, n: nat)
    requires 0 <= selected < n < IntLimit
    ensures 0 <= NextSelection(keyCode, selected, n) < n
  {
  }

  /** UP and DOWN undo each other on a cursor in range, wrap-around included. */
  lemma UpDownInverse(selected: int, n: nat)
    requires 0 <= selected < n < IntLimit
    ensures NextSelection(KeyDown, NextSelection(KeyUp, selected, n), n) == selected
    ensures NextSelection(KeyUp, NextSelection(KeyDown, selected, n), n) == selected
  {
  }

  /** BaseMenu: a selection cursor over option Texts and the callbacks behind them. */
  class BaseMenu {
    const base: GuiElement
    var textOptions: seq<Text>
    var options: seq<MenuOption>
    var currentlySelectedOption: int

    /** No Text is listed twice, so each option's colour is set once per Draw. */
    ghost predicate Valid()
      reads this
    {
      forall i, j :: 0 <= i < j < |textOptions| ==> textOptions[i] != textOptions[j]
    }

    constructor (layer: int, name: string)
      ensures fresh(base) && fresh(base.tagSet)
      ensures base.elementName == name && base.guiLayer == layer
      ensures base.tagSet.tags == [GUIElementTag, Renderable, "BaseMenu"]
      ensures textOptions == [] && options == [] && Valid()
    {
      var b := new GuiElement(layer, name);
      b.tagSet.AddTag("BaseMenu");
      base, textOptions, options := b, [], [];
    }

    /**
     * AddMenuOption: records the option and a new white Text carrying its label,
     * on the menu's layer and named after its 1-based position.
     */
    method AddMenuOption(name: string, callback: MenuFunction) returns (t: Text)
      modifies this
      ensures fresh(t) && fresh(t.base) && fresh(t.base.tagSet)
      ensures options == old(options) + [MenuOption(name, callback)]
      ensures textOptions == old(textOptions) + [t]
      ensures t.base.elementName == OptionName(base.elementName, |old(textOptions)| + 1)
      ensures t.base.guiLayer == base.guiLayer && t.text == name && t.textColor == White
      ensures t.base.tagSet.tags == [GUIElementTag, Renderable, "Text", Renderable]
      ensures currentlySelectedOption == old(currentlySelectedOption)
      ensures old(Valid()) ==> Valid()
    {
      options := options + [MenuOption(name, callback)];
      var textName := OptionName(base.elementName, |textOptions| + 1);
      t := new Text(base.guiLayer, textName);
      t.SetText(name);
      t.SetTextColor(White);
      textOptions := textOptions + [t];
    }

    /** GetMenuOption by name: the first option Text with that name, else None (null). */
    method GetMenuOptionNamed(name: string) returns (r: Option<Text>)
      ensures r.None? <==> forall i :: 0 <= i < |textOptions| ==> textOptions[i].base.elementName != name
      ensures r.Some? ==> exists i :: 0 <= i < |textOptions| && textOptions[i] == r.value &&
                                r.value.base.elementName == name &&
                                forall j :: 0 <= j < i ==> textOptions[j].base.elementName != name
    {
      var i := 0;
      while i < |textOptions|
        invariant 0 <= i <= |textOptions|
        invariant forall j :: 0 <= j < i ==> textOptions[j].base.elementName != name
      {
        if textOptions[i].base.elementName == name { return Some(textOptions[i]); }
        i := i + 1;
      }
      r := None;
    }

    /**
     * GetMenuOption by index: None (null) when the index, read as size_t, is past
     * the end; so any negative int index gives None as well.
     */
    function GetMenuOptionAt(index: int): (r: Option<Text>)
      requires -IntLimit <= index < IntLimit
      reads this
      requires |textOptions| < IntLimit
      ensures r.None? <==> index < 0 || index >= |textOptions|
      ensures r.Some? ==> r.value == textOptions[index]
    {
      if AsSizeT(index) >= |textOptions| then None else Some(textOptions[index])
    }

    /**
     * OnKeyboardInput: repeats and releases are ignored; UP and DOWN move the
     * cursor; RETURN hands back the selected option's callback for the caller to run.
     */
    method OnKeyboardInput(keyCode: int, pressed: bool, released: bool, repeat: bool) returns (invoked: Option<MenuFunction>)
      requires keyCode == KeyReturn && !repeat && !released ==> 0 <= currentlySelectedOption < |options|
      modifies this
      ensures textOptions == old(textOptions) && options == old(options)
      ensures repeat || released ==> currentlySelectedOption == old(currentlySelectedOption)
      ensures !repeat && !released ==> currentlySelectedOption == NextSelection(keyCode, old(currentlySelectedOption), |textOptions|)
      ensures invoked == if !repeat && !released && keyCode == KeyReturn then Some(options[old(currentlySelectedOption)].callback) else None
    {
      invoked := None;
      if repeat { return; }
      if released { return; }
      if keyCode == KeyUp {
        currentlySelectedOption := currentlySelectedOption - 1;
        if currentlySelectedOption <= -1 { currentlySelectedOption := |textOptions| - 1; }
      } else if keyCode == KeyDown {
        currentlySelectedOption := currentlySelectedOption + 1;
        if AsSizeT(currentlySelectedOption) >= |textOptions| { currentlySelectedOption := 0; }
      } else if keyCode == KeyReturn {
        invoked := Some(options[currentlySelectedOption].callback);
      }
    }

    /** Draw: the selected Text turns yellow and every other one white. */
    method Draw()
      requires Valid() && 0 <= currentlySelectedOption < |textOptions|
      modifies textOptions
      ensures forall i :: 0 <= i < |textOptions| ==>
        textOptions[i].textColor == (if i == currentlySelectedOption then Yellow else White) &&
        textOptions[i].text == old(textOptions[i].text)
    {
      textOptions[currentlySelectedOption].SetTextColor(Yellow);
      var i := 0;
      while i < |textOptions|
        invariant 0 <= i <= |textOptions|
        invariant textOptions[currentlySelectedOption].textColor == Yellow
        invariant forall j :: 0 <= j < i && j != currentlySelectedOption ==> textOptions[j].textColor == White
        invariant forall j :: 0 <= j < |textOptions| ==> textOptions[j].text == old(textOptions[j].text)
      {
        if i != currentlySelectedOption {
          textOptions[i].SetTextColor(White);
        }
        i := i + 1;
      }
    }
  }

  /** The reveal state of a textbox: the script, the message on screen and the counters. */
  datatype Reveal = Reveal(messages: seq<DialogueMessage>, currentMessage: DialogueMessage, currText: string,
                           charCounter: int, messagesCounter: int, nextUpdate: real)

  predicate CurrentMessageFinished(s: Reveal)
  {
    |s.currText| >= |s.currentMessage.text|
  }

  predicate DialogueFinished(s: Reveal)
  {
    s.messagesCounter >= |s.messages|
  }

  /** std::string's operator[]: reading at the length gives the terminating '\0'. */
  function CharAt(s: string, i: nat): char
    requires i <= |s|
  {
    if i < |s| then s[i] else '\0'
  }

  /**
   * What is on screen is a prefix of the message, or, for a message with no text,
   * the single '\0' read at its end.
   */
  predicate Shown(shown: string, text: string)
  {
    shown <= text || (text == "" && shown == "\0")
  }

  /**
   * The reveal invariant: the character counter is the length of the shown text,
   * and while a message is pending the shown text is empty (a fresh message) or
   * follows the message at the counter.
   */
  predicate RevealValid(s: Reveal)
  {
    0 <= s.messagesCounter && s.charCounter == |s.currText| &&
    (s.messagesCounter < |s.messages| ==>
      s.currText == [] || (s.currentMessage == s.messages[s.messagesCounter] && Shown(s.currText, s.currentMessage.text)))
  }

  /** Textbox::Update at a given time, once a text element is attached. */
  function UpdateStep(s: Reveal, elapsedTime: real): Reveal
    requires RevealValid(s)
  {
    if CurrentMessageFinished(s) || DialogueFinished(s) then s
    else
      var message := s.messages[s.messagesCounter];
      if elapsedTime < s.nextUpdate then s.(currentMessage := message)
      else s.(currentMessage := message, currText := s.currText + [CharAt(message.text, s.charCounter)],
               charCounter := s.charCounter + 1, nextUpdate := elapsedTime + message.textRate)
  }

  /** Textbox::OnKeyboardInput on a RETURN press. */
  function ReturnStep(s: Reveal): Reveal
  {
    if !CurrentMessageFinished(s) then s
    else
      var next := s.(currText := "", charCounter := 0, messagesCounter := s.messagesCounter + 1);
      if DialogueFinished(next) then next.(messages := []) else next
  }

  lemma UpdateKeepsRevealValid(s: Reveal, elapsedTime: real)
    requires RevealValid(s)
    ensures RevealValid(UpdateStep(s, elapsedTime))
  {
  }

  lemma ReturnKeepsRevealValid(s: Reveal)
    requires RevealValid(s)
    ensures RevealValid(ReturnStep(s))
  {
  }

  /** While a message with text is pending, the shown text is exactly its first charCounter characters. */
  lemma ShownIsPrefix(s: Reveal)
    requires RevealValid(s) && s.messagesCounter < |s.messages|
    requires s.currentMessage == s.messages[s.messagesCounter] && s.currentMessage.text != ""
    ensures s.charCounter <= |s.currentMessage.text| && s.currText == s.currentMessage.text[..s.charCounter]
  {
  }

  /** With positive text rates, updates at one instant reveal at most one character. */
  lemma AtMostOneCharacterPerInstant(s: Reveal, elapsedTime: real)
    requires RevealValid(s)
    requires forall m :: m in s.messages ==> m.textRate > 0.0
    ensures |UpdateStep(UpdateStep(s, elapsedTime), elapsedTime).currText| <= |s.currText| + 1
  {
    var s1 := UpdateStep(s, elapsedTime);
    UpdateKeepsRevealValid(s, elapsedTime);
    if !CurrentMessageFinished(s) && !DialogueFinished(s) && elapsedTime >= s.nextUpdate {
      assert s.messages[s.messagesCounter] in s.messages;
      assert s1.nextUpdate > elapsedTime;
    }
  }

  /** Before nextUpdate no character appears. */
  lemma NothingBeforeNextUpdate(s: Reveal, elapsedTime: real)
    requires RevealValid(s) && elapsedTime < s.nextUpdate
    ensures UpdateStep(s, elapsedTime).currText == s.currText
  {
  }

  /** A finished dialogue stays finished: updates change nothing and RETURN keeps it finished. */
  lemma FinishedStaysFinished(s: Reveal, elapsedTime: real)
    requires RevealValid(s) && DialogueFinished(s)
    ensures UpdateStep(s, elapsedTime) == s
    ensures DialogueFinished(ReturnStep(s))
  {
  }

  /** Advancing past the last message empties the script. */
  lemma LastReturnClearsMessages(s: Reveal)
    requires CurrentMessageFinished(s) && s.messagesCounter + 1 >= |s.messages|
    ensures ReturnStep(s).messages == [] && DialogueFinished(ReturnStep(s))
  {
  }

  /** The default DialogueMessage: no text, rate 0, not skippable. */
  const DefaultMessage := DialogueMessage("", 0.0, false)

  /** A dialogue textbox revealing its script one character at a time. */
  /** How far Textbox::OnElementSpawned reads the textbox definitions file before a get<> throws. */
  datatype TextboxConfig = NoSettings | NoTextSize | SettingsRead

  class Textbox {
    const base: GuiElement
    const boxType: int
    var borderSize: real
    var boxText: Option<Text>
    var messages: seq<DialogueMessage>
    var currentMessage: DialogueMessage
    var currText: string
    var charCounter: int
    var messagesCounter: int
    var nextUpdate: real

    function State(): Reveal
      reads this
    {
      Reveal(messages, currentMessage, currText, charCounter, messagesCounter, nextUpdate)
    }

    /** The reveal invariant, and the attached Text displays exactly the revealed text. */
    ghost predicate Valid()
      reads this, if boxText.Some? then {boxText.value} else {}
    {
      RevealValid(State()) && (boxText.Some? ==> boxText.value.text == currText)
    }

    constructor (layer: int, name: string, textboxType: int)
      ensures fresh(base) && fresh(base.tagSet)
      ensures base.elementName == name && base.guiLayer == layer && boxType == textboxType
      ensures base.tagSet.tags == [GUIElementTag, Renderable, "Textbox", Renderable]
      ensures boxText.None? && messages == [] && currentMessage == DefaultMessage
      ensures currText == "" && charCounter == 0 && messagesCounter == 0
      ensures Valid()
    {
      var b := new GuiElement(layer, name);
      b.tagSet.AddTag("Textbox");
      b.tagSet.AddTag(Renderable);
      base, boxType := b, textboxType;
      boxText, messages, currentMessage := None, [], DefaultMessage;
      currText, charCounter, messagesCounter := "", 0, 0;
    }

    predicate IsCurrentMessageFinished()
      reads this
    {
      CurrentMessageFinished(State())
    }

    predicate IsDialogueFinished()
      reads this
    {
      DialogueFinished(State())
    }

    /**
     * OnElementSpawned on the current state's GUI. Once the box's settings are
     * read, a red, empty Text named after the box is made on the first free
     * layer, attached as the box's text and registered on that layer. A get<>
     * that throws is caught: without settings nothing is attached; without a
     * text size the Text is attached but never registered.
     */
    method OnElementSpawned(gui: GUI, config: TextboxConfig)
      requires gui.Valid() && forall l :: 0 <= l < MaxGuiLayers ==> |gui.elements[l]| < IntLimit
      modifies this, gui
      ensures gui.Valid() && State() == old(State()) && borderSize == old(borderSize)
      ensures config == NoSettings ==> boxText == old(boxText) && gui.elements == old(gui.elements)
      ensures config != NoSettings ==>
        boxText.Some? && fresh(boxText.value) &&
        var t := boxText.value;
        && t.base.elementName == base.elementName + "_text"
        && IsFirstFreeLayer(old(gui.elements), t.base.guiLayer)
        && t.text == "" && t.textColor == Red
        && gui.elements == if config == NoTextSize then old(gui.elements)
                           else old(gui.elements)[t.base.guiLayer := old(gui.elements)[t.base.guiLayer] + [TextElement(t)]]
      ensures old(Valid()) && currText == "" ==> Valid()
    {
      if config == NoSettings {
        return;
      }
      var layer := gui.FindFirstFreeLayer();
      var t := new Text(layer, base.elementName + "_text");
      boxText := Some(t);
      t.SetTextColor(Red);
      if config == NoTextSize {
        return;
      }
      t.SetText("");
      gui.AddElement(TextElement(t), t.base.guiLayer);
    }

    /** Update: without an attached Text nothing happens; otherwise one reveal step. */
    method Update(elapsedTime: real)
      requires Valid()
      modifies this, if boxText.Some? then {boxText.value} else {}
      ensures Valid() && boxText == old(boxText) && borderSize == old(borderSize)
      ensures State() == if old(boxText).None? then old(State()) else UpdateStep(old(State()), elapsedTime)
    {
      if boxText.None? { return; }
      if IsCurrentMessageFinished() || IsDialogueFinished() { return; }
      currentMessage := messages[messagesCounter];
      if elapsedTime < nextUpdate { return; }
      currText := currText + [CharAt(currentMessage.text, charCounter)];
      boxText.value.SetText(currText);
      charCounter := charCounter + 1;
      nextUpdate := elapsedTime + currentMessage.textRate;
    }

    method ResetText()
      requires boxText.Some?
      modifies this, boxText.value
      ensures boxText == old(boxText) && currText == "" && charCounter == 0 && boxText.value.text == ""
      ensures messages == old(messages) && currentMessage == old(currentMessage)
      ensures messagesCounter == old(messagesCounter) && nextUpdate == old(nextUpdate) && borderSize == old(borderSize)
    {
      currText := "";
      charCounter := 0;
      boxText.value.SetText("");
    }

    /** OnKeyboardInput: a RETURN press on a finished message moves to the next one. */
    method OnKeyboardInput(keyCode: int, pressed: bool, released: bool, repeat: bool)
      requires Valid()
      requires pressed && keyCode == KeyReturn && IsCurrentMessageFinished() ==> boxText.Some?
      modifies this, if boxText.Some? then {boxText.value} else {}
      ensures Valid() && boxText == old(boxText) && borderSize == old(borderSize)
      ensures State() == if pressed && keyCode == KeyReturn then ReturnStep(old(State())) else old(State())
    {
      if pressed && keyCode == KeyReturn {
        if IsCurrentMessageFinished() {
          ResetText();
          messagesCounter := messagesCounter + 1;
          if IsDialogueFinished() { messages := []; }
        }
      }
    }

    /** LoadDialogue: takes the script stored under the path and shows its first message. */
    method LoadDialogue(dialogue: DialogueManager, path: string)
      requires |dialogue.GetDialogue(path)| > 0
      modifies this
      ensures messages == dialogue.GetDialogue(path) && currentMessage == messages[0]
      ensures currText == old(currText) && charCounter == old(charCounter) && messagesCounter == old(messagesCounter)
      ensures boxText == old(boxText) && nextUpdate == old(nextUpdate) && borderSize == old(borderSize)
      ensures old(Valid()) && old(currText) == [] ==> Valid()
    {
      messages := dialogue.GetDialogue(path);
      currentMessage := messages[0];
    }

    /** Draw: the background box, then the top, bottom, left and right border strips. */
    function DrawRects(): (r: seq<FRect>)
      reads this, base
      ensures |r| == 5 && r[0] == base.destinationRect && r[1..] == BorderRects(base.destinationRect, borderSize)
    {
      [base.destinationRect] + BorderRects(base.destinationRect, borderSize)
    }
  }

  /** The four border strips of a box: top, bottom, left, right. */
  function BorderRects(dest: FRect, borderSize: real): seq<FRect>
  {
    [dest.(h := borderSize),
     dest.(h := borderSize, y := dest.y + dest.h - borderSize),
     dest.(w := borderSize),
     dest.(w := borderSize, x := dest.x + dest.w - borderSize)]
  }

  predicate Within(inner: FRect, outer: FRect)
  {
    outer.x <= inner.x && inner.x + inner.w <= outer.x + outer.w &&
    outer.y <= inner.y && inner.y + inner.h <= outer.y + outer.h
  }

  /**
   * For a border no thicker than the box, every strip lies inside the box and
   * hugs its own edge: top and bottom span the full width, left and right the
   * full height.
   */
  lemma BorderStripsHugEdges(dest: FRect, borderSize: real)
    requires 0.0 <= borderSize <= dest.w && borderSize <= dest.h
    ensures forall i :: 0 <= i < 4 ==> Within(BorderRects(dest, borderSize)[i], dest)
    ensures BorderRects(dest, borderSize)[0].y == dest.y
    ensures BorderRects(dest, borderSize)[1].y + BorderRects(dest, borderSize)[1].h == dest.y + dest.h
    ensures BorderRects(dest, borderSize)[2].x == dest.x
    ensures BorderRects(dest, borderSize)[3].x + BorderRects(dest, borderSize)[3].w == dest.x + dest.w
    ensures BorderRects(dest, borderSize)[0].w == BorderRects(dest, borderSize)[1].w == dest.w
    ensures BorderRects(dest, borderSize)[2].h == BorderRects(dest, borderSize)[3].h == dest.h
  {
  }
}
