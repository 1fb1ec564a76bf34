/** What a copied page keeps, and what the count of its bytes counts. */
module PageCaptureMarkup {
  import opened Text
  import opened PageCapture

  // What is kept

  lemma {:induction false} LowerCaseAt(s: string)
    ensures |LowerCase(s)| == |s| && forall i :: 0 <= i < |s| ==> LowerCase(s)[i] == LowerAscii(s[i])
  {
    if s != "" {
      LowerCaseAt(s[1..]);
    }
  }

  lemma LowerSpells(s: string, word: string)
    requires forall i :: 0 <= i < |word| ==> 'a' <= word[i] <= 'z'
    ensures LowerCase(s) == word <==> Spells(s, word)
  {
    hide LowerCase;
    LowerCaseAt(s);
    if Spells(s, word) {
      assert forall i :: 0 <= i < |s| ==> LowerCase(s)[i] == word[i];
    }
    if LowerCase(s) == word {
      forall i | 0 <= i < |s|
        ensures s[i] == word[i] || ('A' <= s[i] <= 'Z' && s[i] as int + 32 == word[i] as int)
      {
        assert LowerCase(s)[i] == word[i];
      }
    }
  }

  /** The elements that are not copied, whatever the case of their names: code, embedded programs and forms. */
  ghost predicate IsCodeOrForm(name: string) {
    || Spells(name, "script") || Spells(name, "style") || Spells(name, "noscript") || Spells(name, "template")
    || Spells(name, "object") || Spells(name, "embed") || Spells(name, "canvas") || Spells(name, "svg")
    || Spells(name, "form") || Spells(name, "input") || Spells(name, "textarea") || Spells(name, "select")
    || Spells(name, "button")
  }

  /** Text is kept, and so are exactly the elements that are not code or part of a form; nothing else is. */
  lemma KeptIff(node: Source)
    ensures IsKept(node) <==>
              match node
              case TextNode(_) => true
              case Element(name, _, _, _) => !IsCodeOrForm(name)
              case OtherNode => false
  {
    hide LowerCase, Spells;
    if node.Element? {
      var name := node.localName;
      LowerSpells(name, "script"); LowerSpells(name, "style"); LowerSpells(name, "noscript"); LowerSpells(name, "template");
      LowerSpells(name, "object"); LowerSpells(name, "embed"); LowerSpells(name, "canvas"); LowerSpells(name, "svg");
      LowerSpells(name, "form"); LowerSpells(name, "input"); LowerSpells(name, "textarea"); LowerSpells(name, "select");
      LowerSpells(name, "button");
    }
  }

  // What is kept of an element

  predicate KeptAt(nodes: seq<Source>, i: nat) {
    i < |nodes| && IsKept(nodes[i])
  }

  /** Pruning keeps the kept nodes, in order: `at` says where they are. */
  lemma {:induction false} PruneAllAt(nodes: seq<Source>) returns (at: seq<nat>)
    ensures |at| == |PruneAll(nodes)|
    ensures forall k :: 0 <= k < |at| ==> KeptAt(nodes, at[k]) && PruneAll(nodes)[k] == Prune(nodes[at[k]])
    ensures forall j, k :: 0 <= j < k < |at| ==> at[j] < at[k]
    ensures forall i: nat :: KeptAt(nodes, i) ==> i in at
  {
    hide Prune, IsKept, PruneAll;
    at := [];
    NothingPruned();
    if nodes != [] {
      var last := |nodes| - 1;
      var before := nodes[..last];
      assert nodes == before + [nodes[last]];
      assert [nodes[last]][1..] == [];
      PrunedConcat(before, [nodes[last]]);
      FirstPruned([nodes[last]]);
      at := PruneAllAt(before);
      forall i: nat | KeptAt(nodes, i) && i < last
        ensures i in at
      {
        assert KeptAt(before, i);
      }
      forall k | 0 <= k < |at|
        ensures KeptAt(nodes, at[k]) && nodes[at[k]] == before[at[k]]
      {
        assert KeptAt(before, at[k]);
      }
      if KeptAt(nodes, last) {
        at := at + [last];
      }
    }
  }

  /** The pruned element has its own markup, then its kept children, then those of its shadow root. */
  lemma PrunedElement(element: Source) returns (light: seq<nat>, shadow: seq<nat>)
    requires element.Element?
    ensures Prune(element).ElementTree? && Prune(element).shell == element.shell
    ensures |Prune(element).children| == |light| + |shadow|
    ensures forall k :: 0 <= k < |light| ==>
              KeptAt(element.children, light[k]) && Prune(element).children[k] == Prune(element.children[light[k]])
    ensures forall k :: 0 <= k < |shadow| ==>
              KeptAt(element.shadow, shadow[k]) && Prune(element).children[|light| + k] == Prune(element.shadow[shadow[k]])
    ensures forall j, k :: 0 <= j < k < |light| ==> light[j] < light[k]
    ensures forall j, k :: 0 <= j < k < |shadow| ==> shadow[j] < shadow[k]
    ensures forall i: nat :: (KeptAt(element.children, i) ==> i in light) && (KeptAt(element.shadow, i) ==> i in shadow)
  {
    hide IsKept, PruneAll;
    light := PruneAllAt(element.children);
    shadow := PruneAllAt(element.shadow);
  }

  // What the count counts

  /** Text as a reader of markup sees it again. */
  function Unescaped(s: string): string {
    if s == "" then ""
    else if "&amp;" <= s then ['&'] + Unescaped(s[5..])
    else if "&lt;" <= s then ['<'] + Unescaped(s[4..])
    else if "&gt;" <= s then ['>'] + Unescaped(s[4..])
    else [s[0]] + Unescaped(s[1..])
  }

  /** Escaped text has no markup in it, and reads back as the text. */
  lemma {:induction false} EscapedTextReadsBack(s: string)
    ensures Unescaped(EscapedText(s)) == s
    ensures forall c <- EscapedText(s) :: c != '<' && c != '>'
  {
    if s != "" {
      EscapedTextReadsBack(s[1..]);
      FirstReadsBack(s[0], EscapedText(s[1..]));
    }
  }

  lemma FirstReadsBack(c: char, rest: string)
    ensures Unescaped(EscapedChar(c) + rest) == [c] + Unescaped(rest)
  {
    var first := EscapedChar(c);
    var all := first + rest;
    assert all[|first|..] == rest && all[..|first|] == first;
    assert all[0] == first[0];
    if |first| > 1 {
      assert all[1] == first[1];
    }
    if c == '&' {
      assert "&amp;" <= all;
    } else if c == '<' {
      assert "&lt;" <= all && "&amp;"[1] != all[1];
    } else if c == '>' {
      assert "&gt;" <= all && "&amp;"[1] != all[1] && "&lt;"[1] != all[1];
    } else {
      assert "&amp;"[0] != all[0] && "&lt;"[0] != all[0] && "&gt;"[0] != all[0];
    }
  }

  /** The markup of a tree: the shell of each element, then what is in it; text is escaped. */
  function Markup(tree: Tree): string {
    match tree
    case TextTree(text) => EscapedText(text)
    case ElementTree(shell, children) => shell + MarkupAll(children)
  }

  function MarkupAll(trees: seq<Tree>): string {
    if trees == [] then "" else Markup(trees[0]) + MarkupAll(trees[1..])
  }

  lemma {:induction false} BytesConcat(a: string, b: string)
    ensures ByteLength(a + b) == ByteLength(a) + ByteLength(b)
  {
    if a == "" {
      assert a + b == b;
    } else {
      assert (a + b)[1..] == a[1..] + b;
      BytesConcat(a[1..], b);
    }
  }

  /** The count of a tree is the number of bytes of its markup. */
  lemma {:induction false} BytesOfMarkup(tree: Tree)
    ensures TreeBytes(tree) == ByteLength(Markup(tree))
  {
    match tree
    case TextTree(_) =>
    case ElementTree(shell, children) =>
      BytesOfMarkupAll(children);
      BytesConcat(shell, MarkupAll(children));
  }

  lemma {:induction false} BytesOfMarkupAll(trees: seq<Tree>)
    ensures TreesBytes(trees) == ByteLength(MarkupAll(trees))
  {
    if trees != [] {
      BytesOfMarkup(trees[0]);
      BytesOfMarkupAll(trees[1..]);
      BytesConcat(Markup(trees[0]), MarkupAll(trees[1..]));
    }
  }

  /** The UTF-8 form of a character (RFC 3629, section 3): its code in groups of six bits after the first byte. */
  function Utf8(c: char): seq<nat> {
    var n := c as int;
    if n < 0x80 then [n]
    else if n < 0x800 then [0xC0 + n / 0x40, 0x80 + n % 0x40]
    else if n < 0x10000 then [0xE0 + n / 0x1000, 0x80 + n / 0x40 % 0x40, 0x80 + n % 0x40]
    else [0xF0 + n / 0x40000, 0x80 + n / 0x1000 % 0x40, 0x80 + n / 0x40 % 0x40, 0x80 + n % 0x40]
  }

  function Utf8Text(s: string): seq<nat> {
    if s == "" then [] else Utf8(s[0]) + Utf8Text(s[1..])
  }

  /** The length of a text in bytes is that of its UTF-8 form. */
  lemma {:induction false} ByteLengthIsUtf8(s: string)
    ensures ByteLength(s) == |Utf8Text(s)|
  {
    if s != "" {
      ByteLengthIsUtf8(s[1..]);
    }
  }
}
