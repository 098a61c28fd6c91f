/** The command interpreter `parse_command`: a search over three phrase
    templates, each matched by substring containment of its fixed words. */
module Commands {

  import opened Wrappers

  /** `word` occurs in `text` starting at position `i`. */
  predicate OccursAt(text: string, word: string, i: nat)
  {
    i + |word| <= |text| && text[i..i + |word|] == word
  }

  /** Python's `word in text` on strings. */
  predicate Contains(text: string, word: string)
  {
    exists i: nat :: i <= |text| && OccursAt(text, word, i)
  }

  /** Python's `all(word in text for word in words)`. */
  predicate AllWordsIn(text: string, words: seq<string>)
  {
    forall w <- words :: Contains(text, w)
  }

  /** A template token: a fixed word, or a `{color}`-style placeholder. */
  datatype Token = Word(text: string) | Slot(name: string)

  /** A template and the action it stands for. */
  datatype Command = Command(template: seq<Token>, action: string)

  /** The parameters dictionary: `{"color1": .., "color2": ..}`, `{"color": ..}` or `{}`. */
  type Params = map<string, string>

  /** The `COMMANDS` dictionary, in its insertion (and so iteration) order. */
  const COMMANDS: seq<Command> := [
    Command([Word("pick"), Word("up"), Slot("color1"), Word("and"), Word("put"), Word("over"), Slot("color2")], "pick_place"),
    Command([Word("rotate"), Slot("color"), Word("90"), Word("degrees")], "rotate"),
    Command([Word("place"), Slot("color1"), Word("parallel"), Word("to"), Slot("color2")], "parallel")
  ]

  /** The colour vocabulary, in the order both colour loops scan it. */
  const COLORS: seq<string> := ["red", "blue"]

  const PICK_PLACE_WORDS: seq<string> := ["pick", "up", "and", "put", "over"]
  const ROTATE_WORDS: seq<string> := ["rotate", "90", "degrees"]
  const PARALLEL_WORDS: seq<string> := ["place", "parallel", "to"]

  /** The template with its placeholders removed, split into words: the fixed
      words from token `i` on, in order. */
  function WordsFrom(template: seq<Token>, i: nat): seq<string>
    requires i <= |template|
    decreases |template| - i
  {
    if i == |template| then []
    else (if template[i].Word? then [template[i].text] else []) + WordsFrom(template, i + 1)
  }

  /** `template.replace("{color1}", "").replace("{color2}", "").replace("{color}", "").split()` */
  function FixedWords(template: seq<Token>): seq<string>
  {
    WordsFrom(template, 0)
  }

  /** What each template is matched by: its fixed words, placeholders dropped. */
  lemma TemplateWords()
    ensures FixedWords(COMMANDS[0].template) == PICK_PLACE_WORDS
    ensures FixedWords(COMMANDS[1].template) == ROTATE_WORDS
    ensures FixedWords(COMMANDS[2].template) == PARALLEL_WORDS
  {
    var pick, rotate, parallel := COMMANDS[0].template, COMMANDS[1].template, COMMANDS[2].template;
    assert WordsFrom(pick, 6) == [];
    assert WordsFrom(pick, 5) == ["over"];
    assert WordsFrom(pick, 4) == ["put", "over"];
    assert WordsFrom(pick, 3) == ["and", "put", "over"];
    assert WordsFrom(pick, 2) == ["and", "put", "over"];
    assert WordsFrom(pick, 1) == ["up", "and", "put", "over"];
    assert WordsFrom(rotate, 3) == ["degrees"];
    assert WordsFrom(rotate, 2) == ["90", "degrees"];
    assert WordsFrom(rotate, 1) == ["90", "degrees"];
    assert WordsFrom(parallel, 4) == [];
    assert WordsFrom(parallel, 3) == ["to"];
    assert WordsFrom(parallel, 2) == ["parallel", "to"];
    assert WordsFrom(parallel, 1) == ["parallel", "to"];
  }

  /** The inner loop `for color2 in ["red", "blue"]` from `COLORS[j]` on, for one `color1`. */
  function SecondColor(text: string, color1: string, j: nat): Option<string>
    requires j <= |COLORS|
    decreases |COLORS| - j
  {
    if j == |COLORS| then None
    else if Contains(text, color1) && Contains(text, COLORS[j]) && color1 != COLORS[j] then Some(COLORS[j])
    else SecondColor(text, color1, j + 1)
  }

  /** The outer loop `for color1 in ["red", "blue"]` from `COLORS[i]` on: the
      first ordered pair of distinct colours that both occur. */
  function ColorPair(text: string, i: nat): Option<(string, string)>
    requires i <= |COLORS|
    decreases |COLORS| - i
  {
    if i == |COLORS| then None
    else match SecondColor(text, COLORS[i], 0)
      case Some(color2) => Some((COLORS[i], color2))
      case None => ColorPair(text, i + 1)
  }

  /** The parameters a matching template returns, or `None` when no colour
      occurs and the search moves on to the next template. */
  function ColorParams(text: string): Option<Params>
  {
    match ColorPair(text, 0)
    case Some((color1, color2)) => Some(map["color1" := color1, "color2" := color2])
    case None =>
      if Contains(text, "red") || Contains(text, "blue") then
        Some(map["color" := if Contains(text, "red") then "red" else "blue"])
      else
        None
  }

  /** Colour binding is fixed, not positional: both colours always give
      color1 = red and color2 = blue; one colour gives `color`, red first; none
      gives nothing. */
  lemma ColorParamsSpec(text: string)
    ensures Contains(text, "red") && Contains(text, "blue") ==>
      ColorParams(text) == Some(map["color1" := "red", "color2" := "blue"])
    ensures Contains(text, "red") && !Contains(text, "blue") ==> ColorParams(text) == Some(map["color" := "red"])
    ensures !Contains(text, "red") && Contains(text, "blue") ==> ColorParams(text) == Some(map["color" := "blue"])
    ensures !Contains(text, "red") && !Contains(text, "blue") ==> ColorParams(text) == None
  {
    var both := Contains(text, "red") && Contains(text, "blue");
    assert "red" != "blue" by { assert |"red"| != |"blue"|; }
    assert SecondColor(text, "red", 2) == None;
    assert SecondColor(text, "red", 1) == if both then Some("blue") else None;
    assert SecondColor(text, "red", 0) == if both then Some("blue") else None;
    assert SecondColor(text, "blue", 2) == None;
    assert SecondColor(text, "blue", 1) == None;
    assert ColorPair(text, 0) == if both then Some(("red", "blue")) else None;
  }

  /** The `for template, action in COMMANDS.items()` search from `COMMANDS[i]` on. */
  function ParseFrom(text: string, i: nat): (r: (Option<string>, Params))
    requires i <= |COMMANDS|
    ensures r.0.None? ==> r.1 == map[]
    ensures r.0.Some? ==> ColorParams(text) == Some(r.1)
    ensures r.0.Some? ==> exists k :: i <= k < |COMMANDS| && COMMANDS[k].action == r.0.value
    decreases |COMMANDS| - i
  {
    if i == |COMMANDS| then (None, map[])
    else if AllWordsIn(text, FixedWords(COMMANDS[i].template)) && ColorParams(text).Some? then
      (Some(COMMANDS[i].action), ColorParams(text).value)
    else
      ParseFrom(text, i + 1)
  }

  /** `parse_command(text)`: the action and its parameters, or `(None, {})`. */
  function ParseCommand(text: string): (r: (Option<string>, Params))
    ensures r.0 == None || r.0 == Some("pick_place") || r.0 == Some("rotate") || r.0 == Some("parallel")
  {
    ParseFrom(text, 0)
  }

  predicate HasColor(text: string)
  {
    Contains(text, "red") || Contains(text, "blue")
  }

  /** The whole behaviour of `parse_command`: templates are tried in the order
      pick_place, rotate, parallel; a template whose words all occur still
      yields nothing when no colour occurs; the parameters follow the colours. */
  lemma ParseCommandSpec(text: string)
    ensures ParseCommand(text).0 ==
      if !HasColor(text) then None
      else if AllWordsIn(text, PICK_PLACE_WORDS) then Some("pick_place")
      else if AllWordsIn(text, ROTATE_WORDS) then Some("rotate")
      else if AllWordsIn(text, PARALLEL_WORDS) then Some("parallel")
      else None
    ensures ParseCommand(text).0.None? ==> ParseCommand(text).1 == map[]
    ensures ParseCommand(text).0.Some? ==>
      ParseCommand(text).1 ==
        if Contains(text, "red") && Contains(text, "blue") then map["color1" := "red", "color2" := "blue"]
        else map["color" := if Contains(text, "red") then "red" else "blue"]
  {
    TemplateWords();
    ColorParamsSpec(text);
  }

  lemma Occurs(text: string, word: string, i: nat)
    requires i + |word| <= |text|
    requires forall k :: 0 <= k < |word| ==> text[i + k] == word[k]
    ensures Contains(text, word)
  {
    assert text[i..i + |word|] == word;
    assert OccursAt(text, word, i);
  }

  /** "pick up red and put over blue" is a pick-and-place of red onto blue. */
  lemma ParsePickRedOverBlue()
    ensures ParseCommand("pick up red and put over blue") ==
      (Some("pick_place"), map["color1" := "red", "color2" := "blue"])
  {
    var t := "pick up red and put over blue";
    Occurs(t, "pick", 0);
    Occurs(t, "up", 5);
    Occurs(t, "and", 12);
    Occurs(t, "put", 16);
    Occurs(t, "over", 20);
    Occurs(t, "red", 8);
    Occurs(t, "blue", 25);
    assert AllWordsIn(t, PICK_PLACE_WORDS);
    ParseCommandSpec(t);
  }

  /** With the colours spoken the other way round the parameters are the same:
      the binding ignores where each colour occurs. */
  lemma ParsePickBlueOverRed()
    ensures ParseCommand("pick up blue and put over red") ==
      (Some("pick_place"), map["color1" := "red", "color2" := "blue"])
  {
    var t := "pick up blue and put over red";
    Occurs(t, "pick", 0);
    Occurs(t, "up", 5);
    Occurs(t, "and", 13);
    Occurs(t, "put", 17);
    Occurs(t, "over", 21);
    Occurs(t, "red", 26);
    Occurs(t, "blue", 8);
    assert AllWordsIn(t, PICK_PLACE_WORDS);
    ParseCommandSpec(t);
  }
}
