/**
 * The page scripts the element tools send through `executeScript`, as
 * templates with holes for the escaped selector, text and options, and the
 * fact that no template adds a backslash of its own. Each template is
 * written as short pieces (`<Name>ChunkK` and the segment constants) that
 * join, unchanged, to the template in the source; the split only keeps
 * each proof obligation about a literal small.
 */
module Snippets {

  lemma NoBackslashAppend(a: string, b: string)
    requires '\\' !in a && '\\' !in b
    ensures '\\' !in a + b
  {
  }

  const ClickHeadChunk0 :=
    "\n      function() {" + "\n        const element" + " ="

  const ClickHeadChunk1 :=
    " document.querySelector(" + "\""

  const ClickHead :=
    ClickHeadChunk0 + ClickHeadChunk1

  const ClickPart1Chunk0 :=
    "\");" + "\n        if (!element) {" + "\n          return"

  const ClickPart1Chunk1 :=
    " 'Element not found: "

  const ClickPart1 :=
    ClickPart1Chunk0 + ClickPart1Chunk1

  const ClickTailChunk0 :=
    "';" + "\n        }" + "\n        "

  const ClickTailChunk1 :=
    "\n        // Scroll" + " element into view" + "\n       "

  const ClickTailChunk2 :=
    " element.scrollIntoView(" + "{ behavior: 'smooth'," + " block: 'center' });"

  const ClickTailChunk3 :=
    "\n        " + "\n        // Simulate" + " click"

  const ClickTailChunk4 :=
    "\n        const event =" + " new" + " MouseEvent('click', {"

  const ClickTailChunk5 :=
    "\n          view: window," + "\n          bubbles:" + " true,"

  const ClickTailChunk6 :=
    "\n          cancelable:" + " true" + "\n        });"

  const ClickTailChunk7 :=
    "\n       " + " element.dispatchEvent(e" + "vent);"

  const ClickTailChunk8 :=
    "\n        " + "\n        return" + " 'Clicked on: ' +"

  const ClickTailChunk9 :=
    " element.tagName +" + " (element.className ?" + " '.' +"

  const ClickTailChunk10 :=
    " element.className :" + " '') + (element.id ?" + " '#' + element.id : '');"

  const ClickTailChunk11 :=
    "\n      }" + "\n    "

  const ClickTail :=
    ClickTailChunk0 + ClickTailChunk1 + ClickTailChunk2 + ClickTailChunk3 + ClickTailChunk4 + ClickTailChunk5 + ClickTailChunk6 + ClickTailChunk7 + ClickTailChunk8 + ClickTailChunk9 + ClickTailChunk10 + ClickTailChunk11

  /** The page script of `clickElement`: find, scroll into view, dispatch a click. */
  function ClickScript(escapedSelector: string): string {
    ClickHead + escapedSelector + ClickPart1 + escapedSelector + ClickTail
  }

  const TypeHeadChunk0 :=
    "\n      function() {" + "\n        const element" + " ="

  const TypeHeadChunk1 :=
    " document.querySelector(" + "\""

  const TypeHead :=
    TypeHeadChunk0 + TypeHeadChunk1

  const TypePart1Chunk0 :=
    "\");" + "\n        if (!element) {" + "\n          return"

  const TypePart1Chunk1 :=
    " 'Element not found: "

  const TypePart1 :=
    TypePart1Chunk0 + TypePart1Chunk1

  const TypePart2Chunk0 :=
    "';" + "\n        }" + "\n        "

  const TypePart2Chunk1 :=
    "\n        // Focus the" + " element" + "\n       "

  const TypePart2Chunk2 :=
    " element.focus();" + "\n        " + "\n        // Clear if"

  const TypePart2Chunk3 :=
    " requested" + "\n        if ("

  const TypePart2 :=
    TypePart2Chunk0 + TypePart2Chunk1 + TypePart2Chunk2 + TypePart2Chunk3

  const TypePart3Chunk0 :=
    ") {" + "\n         " + " element.value = '';"

  const TypePart3Chunk1 :=
    "\n        }" + "\n        " + "\n        // Type the"

  const TypePart3Chunk2 :=
    " text" + "\n        element.value" + " += \""

  const TypePart3 :=
    TypePart3Chunk0 + TypePart3Chunk1 + TypePart3Chunk2

  const TypeTailChunk0 :=
    "\";" + "\n        " + "\n        // Trigger"

  const TypeTailChunk1 :=
    " input event" + "\n        const" + " inputEvent = new"

  const TypeTailChunk2 :=
    " Event('input', {" + " bubbles: true });" + "\n       "

  const TypeTailChunk3 :=
    " element.dispatchEvent(i" + "nputEvent);" + "\n        "

  const TypeTailChunk4 :=
    "\n        // Trigger" + " change event" + "\n        const"

  const TypeTailChunk5 :=
    " changeEvent = new" + " Event('change', {" + " bubbles: true });"

  const TypeTailChunk6 :=
    "\n       " + " element.dispatchEvent(c" + "hangeEvent);"

  const TypeTailChunk7 :=
    "\n        " + "\n        return 'Typed" + " text into: ' +"

  const TypeTailChunk8 :=
    " element.tagName +" + " (element.type ?" + " '[type=' +"

  const TypeTailChunk9 :=
    " element.type + ']' :" + " '');" + "\n      }"

  const TypeTailChunk10 :=
    "\n    "

  const TypeTail :=
    TypeTailChunk0 + TypeTailChunk1 + TypeTailChunk2 + TypeTailChunk3 + TypeTailChunk4 + TypeTailChunk5 + TypeTailChunk6 + TypeTailChunk7 + TypeTailChunk8 + TypeTailChunk9 + TypeTailChunk10

  /** The page script of `typeText`: focus, optionally clear, append the text, fire input and change. */
  function TypeScript(escapedSelector: string, clearFirst: string, escapedText: string): string {
    TypeHead + escapedSelector + TypePart1 + escapedSelector + TypePart2 + clearFirst + TypePart3 + escapedText + TypeTail
  }

  const ScrollElementHeadChunk0 :=
    "\n        function() {" + "\n          const" + " element ="

  const ScrollElementHeadChunk1 :=
    " document.querySelector(" + "\""

  const ScrollElementHead :=
    ScrollElementHeadChunk0 + ScrollElementHeadChunk1

  const ScrollElementPart1Chunk0 :=
    "\");" + "\n          if" + " (!element) {"

  const ScrollElementPart1Chunk1 :=
    "\n            return" + " 'Element not found: "

  const ScrollElementPart1 :=
    ScrollElementPart1Chunk0 + ScrollElementPart1Chunk1

  const ScrollElementPart2Chunk0 :=
    "';" + "\n          }" + "\n         "

  const ScrollElementPart2Chunk1 :=
    " element.scrollIntoView(" + "{ behavior: '"

  const ScrollElementPart2 :=
    ScrollElementPart2Chunk0 + ScrollElementPart2Chunk1

  const ScrollElementPart3 :=
    "', block: 'center' });" + "\n          return" + " 'Scrolled to element: "

  const ScrollElementTail :=
    "';" + "\n        }" + "\n      "

  /** The page script of `scrollTo` with a selector. */
  function ScrollToElementScript(escapedSelector: string, behavior: string): string {
    ScrollElementHead + escapedSelector + ScrollElementPart1 + escapedSelector + ScrollElementPart2 + behavior + ScrollElementPart3 + escapedSelector + ScrollElementTail
  }

  const ScrollPositionHeadChunk0 :=
    "\n        function() {" + "\n         " + " window.scrollTo({"

  const ScrollPositionHeadChunk1 :=
    "\n            left: "

  const ScrollPositionHead :=
    ScrollPositionHeadChunk0 + ScrollPositionHeadChunk1

  const ScrollPositionPart1 :=
    "," + "\n            top: "

  const ScrollPositionPart2 :=
    "," + "\n            behavior: '"

  const ScrollPositionPart3Chunk0 :=
    "'" + "\n          });" + "\n          return"

  const ScrollPositionPart3Chunk1 :=
    " 'Scrolled to position:" + " x="

  const ScrollPositionPart3 :=
    ScrollPositionPart3Chunk0 + ScrollPositionPart3Chunk1

  const ScrollPositionPart4 :=
    ", y="

  const ScrollPositionTail :=
    "';" + "\n        }" + "\n      "

  /** The page script of `scrollTo` with coordinates. */
  function ScrollToPositionScript(x: string, y: string, behavior: string): string {
    ScrollPositionHead + x + ScrollPositionPart1 + y + ScrollPositionPart2 + behavior + ScrollPositionPart3 + x + ScrollPositionPart4 + y + ScrollPositionTail
  }

  const ByTextHeadChunk0 :=
    "\n        for (let" + " option of" + " element.options) {"

  const ByTextHeadChunk1 :=
    "\n          if" + " (option.text === \""

  const ByTextHead :=
    ByTextHeadChunk0 + ByTextHeadChunk1

  const ByTextTailChunk0 :=
    "\") {" + "\n           " + " element.value ="

  const ByTextTailChunk1 :=
    " option.value;" + "\n            break;" + "\n          }"

  const ByTextTailChunk2 :=
    "\n        }" + "\n      "

  const ByTextTail :=
    ByTextTailChunk0 + ByTextTailChunk1 + ByTextTailChunk2

  /** The statement of `selectOption` that picks the first option with the given text. */
  function ByTextStatement(escapedText: string): string {
    ByTextHead + escapedText + ByTextTail
  }

  const SelectHeadChunk0 :=
    "\n      function() {" + "\n        const element" + " ="

  const SelectHeadChunk1 :=
    " document.querySelector(" + "\""

  const SelectHead :=
    SelectHeadChunk0 + SelectHeadChunk1

  const SelectPart1Chunk0 :=
    "\");" + "\n        if (!element" + " || element.tagName !=="

  const SelectPart1Chunk1 :=
    " 'SELECT') {" + "\n          return" + " 'Select element not"

  const SelectPart1Chunk2 :=
    " found: "

  const SelectPart1 :=
    SelectPart1Chunk0 + SelectPart1Chunk1 + SelectPart1Chunk2

  const SelectPart2Chunk0 :=
    "';" + "\n        }" + "\n        "

  const SelectPart2Chunk1 :=
    "\n        "

  const SelectPart2 :=
    SelectPart2Chunk0 + SelectPart2Chunk1

  const SelectPart3Chunk0 :=
    "\n        " + "\n        // Trigger" + " change event"

  const SelectPart3Chunk1 :=
    "\n        const" + " changeEvent = new" + " Event('change', {"

  const SelectPart3Chunk2 :=
    " bubbles: true });" + "\n       " + " element.dispatchEvent(c"

  const SelectPart3Chunk3 :=
    "hangeEvent);" + "\n        " + "\n        return"

  const SelectPart3Chunk4 :=
    " 'Selected option in: '" + " + element.name ||" + " element.id || '"

  const SelectPart3 :=
    SelectPart3Chunk0 + SelectPart3Chunk1 + SelectPart3Chunk2 + SelectPart3Chunk3 + SelectPart3Chunk4

  const SelectTail :=
    "';" + "\n      }" + "\n    "

  /** The page script of `selectOption` around its selection statement. */
  function SelectScript(escapedSelector: string, statement: string): string {
    SelectHead + escapedSelector + SelectPart1 + escapedSelector + SelectPart2 + statement + SelectPart3 + escapedSelector + SelectTail
  }

  const ElementTextHeadChunk0 :=
    "\n      function() {" + "\n        const element" + " ="

  const ElementTextHeadChunk1 :=
    " document.querySelector(" + "\""

  const ElementTextHead :=
    ElementTextHeadChunk0 + ElementTextHeadChunk1

  const ElementTextPart1Chunk0 :=
    "\");" + "\n        if (!element) {" + "\n          return"

  const ElementTextPart1Chunk1 :=
    " 'Element not found: "

  const ElementTextPart1 :=
    ElementTextPart1Chunk0 + ElementTextPart1Chunk1

  const ElementTextTailChunk0 :=
    "';" + "\n        }" + "\n        return"

  const ElementTextTailChunk1 :=
    " element.textContent ||" + " element.innerText ||" + " '';"

  const ElementTextTailChunk2 :=
    "\n      }" + "\n    "

  const ElementTextTail :=
    ElementTextTailChunk0 + ElementTextTailChunk1 + ElementTextTailChunk2

  /** The page script of `getElementText`. */
  function ElementTextScript(escapedSelector: string): string {
    ElementTextHead + escapedSelector + ElementTextPart1 + escapedSelector + ElementTextTail
  }

  const CheckHeadChunk0 :=
    "\n        function() {" + "\n          const" + " element ="

  const CheckHeadChunk1 :=
    " document.querySelector(" + "\""

  const CheckHead :=
    CheckHeadChunk0 + CheckHeadChunk1

  const CheckPart1Chunk0 :=
    "\");" + "\n          if" + " (!element) return"

  const CheckPart1Chunk1 :=
    " false;" + "\n          " + "\n          if ("

  const CheckPart1 :=
    CheckPart1Chunk0 + CheckPart1Chunk1

  const CheckTailChunk0 :=
    ") {" + "\n            const rect" + " ="

  const CheckTailChunk1 :=
    " element.getBoundingClie" + "ntRect();" + "\n            const"

  const CheckTailChunk2 :=
    " isVisible = rect.width" + " > 0 && rect.height > 0" + " && "

  const CheckTailChunk3 :=
    "\n                      " + "      rect.top <" + " window.innerHeight && "

  const CheckTailChunk4 :=
    "\n                      " + "      rect.bottom > 0;" + "\n            return"

  const CheckTailChunk5 :=
    " isVisible;" + "\n          }" + "\n          "

  const CheckTailChunk6 :=
    "\n          return true;" + "\n        }" + "\n      "

  const CheckTail :=
    CheckTailChunk0 + CheckTailChunk1 + CheckTailChunk2 + CheckTailChunk3 + CheckTailChunk4 + CheckTailChunk5 + CheckTailChunk6

  /** The page script each `waitForElement` check runs. */
  function CheckScript(escapedSelector: string, visible: string): string {
    CheckHead + escapedSelector + CheckPart1 + visible + CheckTail
  }

  /** The page script of `scrollTo` with neither a selector nor coordinates. */
  const NoScrollTargetScriptChunk0 :=
    "\n        function() {" + "\n          return 'No" + " scroll target"

  const NoScrollTargetScriptChunk1 :=
    " specified';" + "\n        }" + "\n      "

  const NoScrollTargetScript :=
    NoScrollTargetScriptChunk0 + NoScrollTargetScriptChunk1

  /** With backslash-free arguments, the whole script is backslash-free. */
  lemma ClickScriptNoBackslash(escapedSelector: string)
    requires '\\' !in escapedSelector
    ensures '\\' !in ClickScript(escapedSelector)
  {
    ClickHeadNoBackslash();
    ClickPart1NoBackslash();
    ClickTailNoBackslash();
    NoBackslashAppend(ClickHead, escapedSelector);
    NoBackslashAppend(ClickHead + escapedSelector, ClickPart1);
    NoBackslashAppend(ClickHead + escapedSelector + ClickPart1, escapedSelector);
    NoBackslashAppend(ClickHead + escapedSelector + ClickPart1 + escapedSelector, ClickTail);
  }

  /** With backslash-free arguments, the whole script is backslash-free. */
  lemma TypeScriptNoBackslash(escapedSelector: string, clearFirst: string, escapedText: string)
    requires '\\' !in escapedSelector && '\\' !in clearFirst && '\\' !in escapedText
    ensures '\\' !in TypeScript(escapedSelector, clearFirst, escapedText)
  {
    TypeHeadNoBackslash();
    TypePart1NoBackslash();
    TypePart2NoBackslash();
    TypePart3NoBackslash();
    TypeTailNoBackslash();
    NoBackslashAppend(TypeHead, escapedSelector);
    NoBackslashAppend(TypeHead + escapedSelector, TypePart1);
    NoBackslashAppend(TypeHead + escapedSelector + TypePart1, escapedSelector);
    NoBackslashAppend(TypeHead + escapedSelector + TypePart1 + escapedSelector, TypePart2);
    NoBackslashAppend(TypeHead + escapedSelector + TypePart1 + escapedSelector + TypePart2, clearFirst);
    NoBackslashAppend(TypeHead + escapedSelector + TypePart1 + escapedSelector + TypePart2 + clearFirst, TypePart3);
    NoBackslashAppend(TypeHead + escapedSelector + TypePart1 + escapedSelector + TypePart2 + clearFirst + TypePart3, escapedText);
    NoBackslashAppend(TypeHead + escapedSelector + TypePart1 + escapedSelector + TypePart2 + clearFirst + TypePart3 + escapedText, TypeTail);
  }

  /** With backslash-free arguments, the whole script is backslash-free. */
  lemma ScrollToElementScriptNoBackslash(escapedSelector: string, behavior: string)
    requires '\\' !in escapedSelector && '\\' !in behavior
    ensures '\\' !in ScrollToElementScript(escapedSelector, behavior)
  {
    ScrollElementHeadNoBackslash();
    ScrollElementPart1NoBackslash();
    ScrollElementPart2NoBackslash();
    ScrollElementPart3NoBackslash();
    ScrollElementTailNoBackslash();
    NoBackslashAppend(ScrollElementHead, escapedSelector);
    NoBackslashAppend(ScrollElementHead + escapedSelector, ScrollElementPart1);
    NoBackslashAppend(ScrollElementHead + escapedSelector + ScrollElementPart1, escapedSelector);
    NoBackslashAppend(ScrollElementHead + escapedSelector + ScrollElementPart1 + escapedSelector, ScrollElementPart2);
    NoBackslashAppend(ScrollElementHead + escapedSelector + ScrollElementPart1 + escapedSelector + ScrollElementPart2, behavior);
    NoBackslashAppend(ScrollElementHead + escapedSelector + ScrollElementPart1 + escapedSelector + ScrollElementPart2 + behavior, ScrollElementPart3);
    NoBackslashAppend(ScrollElementHead + escapedSelector + ScrollElementPart1 + escapedSelector + ScrollElementPart2 + behavior + ScrollElementPart3, escapedSelector);
    NoBackslashAppend(ScrollElementHead + escapedSelector + ScrollElementPart1 + escapedSelector + ScrollElementPart2 + behavior + ScrollElementPart3 + escapedSelector, ScrollElementTail);
  }

  /** With backslash-free arguments, the whole script is backslash-free. */
  lemma ScrollToPositionScriptNoBackslash(x: string, y: string, behavior: string)
    requires '\\' !in x && '\\' !in y && '\\' !in behavior
    ensures '\\' !in ScrollToPositionScript(x, y, behavior)
  {
    ScrollPositionHeadNoBackslash();
    ScrollPositionPart1NoBackslash();
    ScrollPositionPart2NoBackslash();
    ScrollPositionPart3NoBackslash();
    ScrollPositionPart4NoBackslash();
    ScrollPositionTailNoBackslash();
    NoBackslashAppend(ScrollPositionHead, x);
    NoBackslashAppend(ScrollPositionHead + x, ScrollPositionPart1);
    NoBackslashAppend(ScrollPositionHead + x + ScrollPositionPart1, y);
    NoBackslashAppend(ScrollPositionHead + x + ScrollPositionPart1 + y, ScrollPositionPart2);
    NoBackslashAppend(ScrollPositionHead + x + ScrollPositionPart1 + y + ScrollPositionPart2, behavior);
    NoBackslashAppend(ScrollPositionHead + x + ScrollPositionPart1 + y + ScrollPositionPart2 + behavior, ScrollPositionPart3);
    NoBackslashAppend(ScrollPositionHead + x + ScrollPositionPart1 + y + ScrollPositionPart2 + behavior + ScrollPositionPart3, x);
    NoBackslashAppend(ScrollPositionHead + x + ScrollPositionPart1 + y + ScrollPositionPart2 + behavior + ScrollPositionPart3 + x, ScrollPositionPart4);
    NoBackslashAppend(ScrollPositionHead + x + ScrollPositionPart1 + y + ScrollPositionPart2 + behavior + ScrollPositionPart3 + x + ScrollPositionPart4, y);
    NoBackslashAppend(ScrollPositionHead + x + ScrollPositionPart1 + y + ScrollPositionPart2 + behavior + ScrollPositionPart3 + x + ScrollPositionPart4 + y, ScrollPositionTail);
  }

  /** With backslash-free arguments, the whole script is backslash-free. */
  lemma ByTextStatementNoBackslash(escapedText: string)
    requires '\\' !in escapedText
    ensures '\\' !in ByTextStatement(escapedText)
  {
    ByTextHeadNoBackslash();
    ByTextTailNoBackslash();
    NoBackslashAppend(ByTextHead, escapedText);
    NoBackslashAppend(ByTextHead + escapedText, ByTextTail);
  }

  /** With backslash-free arguments, the whole script is backslash-free. */
  lemma SelectScriptNoBackslash(escapedSelector: string, statement: string)
    requires '\\' !in escapedSelector && '\\' !in statement
    ensures '\\' !in SelectScript(escapedSelector, statement)
  {
    SelectHeadNoBackslash();
    SelectPart1NoBackslash();
    SelectPart2NoBackslash();
    SelectPart3NoBackslash();
    SelectTailNoBackslash();
    NoBackslashAppend(SelectHead, escapedSelector);
    NoBackslashAppend(SelectHead + escapedSelector, SelectPart1);
    NoBackslashAppend(SelectHead + escapedSelector + SelectPart1, escapedSelector);
    NoBackslashAppend(SelectHead + escapedSelector + SelectPart1 + escapedSelector, SelectPart2);
    NoBackslashAppend(SelectHead + escapedSelector + SelectPart1 + escapedSelector + SelectPart2, statement);
    NoBackslashAppend(SelectHead + escapedSelector + SelectPart1 + escapedSelector + SelectPart2 + statement, SelectPart3);
    NoBackslashAppend(SelectHead + escapedSelector + SelectPart1 + escapedSelector + SelectPart2 + statement + SelectPart3, escapedSelector);
    NoBackslashAppend(SelectHead + escapedSelector + SelectPart1 + escapedSelector + SelectPart2 + statement + SelectPart3 + escapedSelector, SelectTail);
  }

  /** With backslash-free arguments, the whole script is backslash-free. */
  lemma ElementTextScriptNoBackslash(escapedSelector: string)
    requires '\\' !in escapedSelector
    ensures '\\' !in ElementTextScript(escapedSelector)
  {
    ElementTextHeadNoBackslash();
    ElementTextPart1NoBackslash();
    ElementTextTailNoBackslash();
    NoBackslashAppend(ElementTextHead, escapedSelector);
    NoBackslashAppend(ElementTextHead + escapedSelector, ElementTextPart1);
    NoBackslashAppend(ElementTextHead + escapedSelector + ElementTextPart1, escapedSelector);
    NoBackslashAppend(ElementTextHead + escapedSelector + ElementTextPart1 + escapedSelector, ElementTextTail);
  }

  /** With backslash-free arguments, the whole script is backslash-free. */
  lemma CheckScriptNoBackslash(escapedSelector: string, visible: string)
    requires '\\' !in escapedSelector && '\\' !in visible
    ensures '\\' !in CheckScript(escapedSelector, visible)
  {
    CheckHeadNoBackslash();
    CheckPart1NoBackslash();
    CheckTailNoBackslash();
    NoBackslashAppend(CheckHead, escapedSelector);
    NoBackslashAppend(CheckHead + escapedSelector, CheckPart1);
    NoBackslashAppend(CheckHead + escapedSelector + CheckPart1, visible);
    NoBackslashAppend(CheckHead + escapedSelector + CheckPart1 + visible, CheckTail);
  }

  lemma ClickHeadChunk0NoBackslash()
    ensures '\\' !in ClickHeadChunk0
  {
    var ps := ["\n      function() {", "\n        const element", " ="];
    assert '\\' !in ps[0];
    assert '\\' !in ps[1];
    assert '\\' !in ps[2];
    var acc := ps[0];
    NoBackslashAppend(acc, ps[1]);
    acc := acc + ps[1];
    NoBackslashAppend(acc, ps[2]);
    acc := acc + ps[2];
    assert acc == ClickHeadChunk0;
  }

  lemma ClickHeadChunk1NoBackslash()
    ensures '\\' !in ClickHeadChunk1
  {
    var ps := [" document.querySelector(", "\""];
    assert '\\' !in ps[0];
    assert '\\' !in ps[1];
    var acc := ps[0];
    NoBackslashAppend(acc, ps[1]);
    acc := acc + ps[1];
    assert acc == ClickHeadChunk1;
  }

  lemma ClickHeadNoBackslash()
    ensures '\\' !in ClickHead
  {
    ClickHeadChunk0NoBackslash();
    ClickHeadChunk1NoBackslash();
    NoBackslashAppend(ClickHeadChunk0, ClickHeadChunk1);
  }

  lemma ClickPart1Chunk0NoBackslash()
    ensures '\\' !in ClickPart1Chunk0
  {
    var ps := ["\");", "\n        if (!element) {", "\n          return"];
    assert '\\' !in ps[0];
    assert '\\' !in ps[1];
    assert '\\' !in ps[2];
    var acc := ps[0];
    NoBackslashAppend(acc, ps[1]);
    acc := acc + ps[1];
    NoBackslashAppend(acc, ps[2]);
    acc := acc + ps[2];
    assert acc == ClickPart1Chunk0;
  }

  lemma ClickPart1Chunk1NoBackslash()
    ensures '\\' !in ClickPart1Chunk1
  {
    var ps := [" 'Element not found: "];
    assert '\\' !in ps[0];
    var acc := ps[0];
    assert acc == ClickPart1Chunk1;
  }

  lemma ClickPart1NoBackslash()
    ensures '\\' !in ClickPart1
  {
    ClickPart1Chunk0NoBackslash();
    ClickPart1Chunk1NoBackslash();
    NoBackslashAppend(ClickPart1Chunk0, ClickPart1Chunk1);
  }

  lemma ClickTailChunk0NoBackslash()
    ensures '\\' !in ClickTailChunk0
  {
    var ps := ["';", "\n        }", "\n        "];
    assert '\\' !in ps[0];
    assert '\\' !in ps[1];
    assert '\\' !in ps[2];
    var acc := ps[0];
    NoBackslashAppend(acc, ps[1]);
    acc := acc + ps[1];
    NoBackslashAppend(acc, ps[2]);
    acc := acc + ps[2];
    assert acc == ClickTailChunk0;
  }

  lemma ClickTailChunk1NoBackslash()
    ensures '\\' !in ClickTailChunk1
  {
    var ps := ["\n        // Scroll", " element into view", "\n       "];
    assert '\\' !in ps[0];
    assert '\\' !in ps[1];
    assert '\\' !in ps[2];
    var acc := ps[0];
    NoBackslashAppend(acc, ps[1]);
    acc := acc + ps[1];
    NoBackslashAppend(acc, ps[2]);
    acc := acc + ps[2];
    assert acc == ClickTailChunk1;
  }

  lemma ClickTailChunk2NoBackslash()
    ensures '\\' !in ClickTailChunk2
  {
    var ps := [" element.scrollIntoView(", "{ behavior: 'smooth',", " block: 'center' });"];
    assert '\\' !in ps[0];
    assert '\\' !in ps[1];
    assert '\\' !in ps[2];
    var acc := ps[0];
    NoBackslashAppend(acc, ps[1]);
    acc := acc + ps[1];
    NoBackslashAppend(acc, ps[2]);
    acc := acc + ps[2];
    assert acc == ClickTailChunk2;
  }

  lemma ClickTailChunk3NoBackslash()
    ensures '\\' !in ClickTailChunk3
  {
    var ps := ["\n        ", "\n        // Simulate", " click"];
    assert '\\' !in ps[0];
    assert '\\' !in ps[1];
    assert '\\' !in ps[2];
    var acc := ps[0];
    NoBackslashAppend(acc, ps[1]);
    acc := acc + ps[1];
    NoBackslashAppend(acc, ps[2]);
    acc := acc + ps[2];
    assert acc == ClickTailChunk3;
  }

  lemma ClickTailChunk4NoBackslash()
    ensures '\\' !in ClickTailChunk4
  {
    var ps := ["\n        const event =", " new", " MouseEvent('click', {"];
    assert '\\' !in ps[0];
    assert '\\' !in ps[1];
    assert '\\' !in ps[2];
    var acc := ps[0];
    NoBackslashAppend(acc, ps[1]);
    acc := acc + ps[1];
    NoBackslashAppend(acc, ps[2]);
    acc := acc + ps[2];
    assert acc == ClickTailChunk4;
  }

  lemma ClickTailChunk5NoBackslash()
    ensures '\\' !in ClickTailChunk5
  {
    var ps := ["\n          view: window,", "\n          bubbles:", " true,"];
    assert '\\' !in ps[0];
    assert '\\' !in ps[1];
    assert '\\' !in ps[2];
    var acc := ps[0];
    NoBackslashAppend(acc, ps[1]);
    acc := acc + ps[1];
    NoBackslashAppend(acc, ps[2]);
    acc := acc + ps[2];
    assert acc == ClickTailChunk5;
  }

  lemma ClickTailChunk6NoBackslash()
    ensures '\\' !in ClickTailChunk6
  {
    var ps := ["\n          cancelable:", " true", "\n        });"];
    assert '\\' !in ps[0];
    assert '\\' !in ps[1];
    assert '\\' !in ps[2];
    var acc := ps[0];
    NoBackslashAppend(acc, ps[1]);
    acc := acc + ps[1];
    NoBackslashAppend(acc, ps[2]);
    acc := acc + ps[2];
    assert acc == ClickTailChunk6;
  }

  lemma ClickTailChunk7NoBackslash()
    ensures '\\' !in ClickTailChunk7
  {
    var ps := ["\n       ", " element.dispatchEvent(e", "vent);"];
    assert '\\' !in ps[0];
    assert '\\' !in ps[1];
    assert '\\' !in ps[2];
    var acc := ps[0];
    NoBackslashAppend(acc, ps[1]);
    acc := acc + ps[1];
    NoBackslashAppend(acc, ps[2]);
    acc := acc + ps[2];
    assert acc == ClickTailChunk7;
  }

  lemma ClickTailChunk8NoBackslash()
    ensures '\\' !in ClickTailChunk8
  {
    var ps := ["\n        ", "\n        return", " 'Clicked on: ' +"];
    assert '\\' !in ps[0];
    assert '\\' !in ps[1];
    assert '\\' !in ps[2];
    var acc := ps[0];
    NoBackslashAppend(acc, ps[1]);
    acc := acc + ps[1];
    NoBackslashAppend(acc, ps[2]);
    acc := acc + ps[2];
    assert acc == ClickTailChunk8;
  }

  lemma ClickTailChunk9NoBackslash()
    ensures '\\' !in ClickTailChunk9
  {
    var ps := [" element.tagName +", " (element.className ?", " '.' +"];
    assert '\\' !in ps[0];
    assert '\\' !in ps[1];
    assert '\\' !in ps[2];
    var acc := ps[0];
    NoBackslashAppend(acc, ps[1]);
    acc := acc + ps[1];
    NoBackslashAppend(acc, ps[2]);
    acc := acc + ps[2];
    assert acc == ClickTailChunk9;
  }

  lemma ClickTailChunk10NoBackslash()
    ensures '\\' !in ClickTailChunk10
  {
    var ps := [" element.className :", " '') + (element.id ?", " '#' + element.id : '');"];
    assert '\\' !in ps[0];
    assert '\\' !in ps[1];
    assert '\\' !in ps[2];
    var acc := ps[0];
    NoBackslashAppend(acc, ps[1]);
    acc := acc + ps[1];
    NoBackslashAppend(acc, ps[2]);
    acc := acc + ps[2];
    assert acc == ClickTailChunk10;
  }

  lemma ClickTailChunk11NoBackslash()
    ensures '\\' !in ClickTailChunk11
  {
    var ps := ["\n      }", "\n    "];
    assert '\\' !in ps[0];
    assert '\\' !in ps[1];
    var acc := ps[0];
    NoBackslashAppend(acc, ps[1]);
    acc := acc + ps[1];
    assert acc == ClickTailChunk11;
  }

  lemma ClickTailNoBackslash()
    ensures '\\' !in ClickTail
  {
    ClickTailChunk0NoBackslash();
    ClickTailChunk1NoBackslash();
    ClickTailChunk2NoBackslash();
    ClickTailChunk3NoBackslash();
    ClickTailChunk4NoBackslash();
    ClickTailChunk5NoBackslash();
    ClickTailChunk6NoBackslash();
    ClickTailChunk7NoBackslash();
    ClickTailChunk8NoBackslash();
    ClickTailChunk9NoBackslash();
    ClickTailChunk10NoBackslash();
    ClickTailChunk11NoBackslash();
    NoBackslashAppend(ClickTailChunk0, ClickTailChunk1);
    NoBackslashAppend(ClickTailChunk0 + ClickTailChunk1, ClickTailChunk2);
    NoBackslashAppend(ClickTailChunk0 + ClickTailChunk1 + ClickTailChunk2, ClickTailChunk3);
    NoBackslashAppend(ClickTailChunk0 + ClickTailChunk1 + ClickTailChunk2 + ClickTailChunk3, ClickTailChunk4);
    NoBackslashAppend(ClickTailChunk0 + ClickTailChunk1 + ClickTailChunk2 + ClickTailChunk3 + ClickTailChunk4, ClickTailChunk5);
    NoBackslashAppend(ClickTailChunk0 + ClickTailChunk1 + ClickTailChunk2 + ClickTailChunk3 + ClickTailChunk4 + ClickTailChunk5, ClickTailChunk6);
    NoBackslashAppend(ClickTailChunk0 + ClickTailChunk1 + ClickTailChunk2 + ClickTailChunk3 + ClickTailChunk4 + ClickTailChunk5 + ClickTailChunk6, ClickTailChunk7);
    NoBackslashAppend(ClickTailChunk0 + ClickTailChunk1 + ClickTailChunk2 + ClickTailChunk3 + ClickTailChunk4 + ClickTailChunk5 + ClickTailChunk6 + ClickTailChunk7, ClickTailChunk8);
    NoBackslashAppend(ClickTailChunk0 + ClickTailChunk1 + ClickTailChunk2 + ClickTailChunk3 + ClickTailChunk4 + ClickTailChunk5 + ClickTailChunk6 + ClickTailChunk7 + ClickTailChunk8, ClickTailChunk9);
    NoBackslashAppend(ClickTailChunk0 + ClickTailChunk1 + ClickTailChunk2 + ClickTailChunk3 + ClickTailChunk4 + ClickTailChunk5 + ClickTailChunk6 + ClickTailChunk7 + ClickTailChunk8 + ClickTailChunk9, ClickTailChunk10);
    NoBackslashAppend(ClickTailChunk0 + ClickTailChunk1 + ClickTailChunk2 + ClickTailChunk3 + ClickTailChunk4 + ClickTailChunk5 + ClickTailChunk6 + ClickTailChunk7 + ClickTailChunk8 + ClickTailChunk9 + ClickTailChunk10, ClickTailChunk11);
  }

  lemma TypeHeadChunk0NoBackslash()
    ensures '\\' !in TypeHeadChunk0
  {
    var ps := ["\n      function() {", "\n        const element", " ="];
    assert '\\' !in ps[0];
    assert '\\' !in ps[1];
    assert '\\' !in ps[2];
    var acc := ps[0];
    NoBackslashAppend(acc, ps[1]);
    acc := acc + ps[1];
    NoBackslashAppend(acc, ps[2]);
    acc := acc + ps[2];
    assert acc == TypeHeadChunk0;
  }

  lemma TypeHeadChunk1NoBackslash()
    ensures '\\' !in TypeHeadChunk1
  {
    var ps := [" document.querySelector(", "\""];
    assert '\\' !in ps[0];
    assert '\\' !in ps[1];
    var acc := ps[0];
    NoBackslashAppend(acc, ps[1]);
    acc := acc + ps[1];
    assert acc == TypeHeadChunk1;
  }

  lemma TypeHeadNoBackslash()
    ensures '\\' !in TypeHead
  {
    TypeHeadChunk0NoBackslash();
    TypeHeadChunk1NoBackslash();
    NoBackslashAppend(TypeHeadChunk0, TypeHeadChunk1);
  }

  lemma TypePart1Chunk0NoBackslash()
    ensures '\\' !in TypePart1Chunk0
  {
    var ps := ["\");", "\n        if (!element) {", "\n          return"];
    assert '\\' !in ps[0];
    assert '\\' !in ps[1];
    assert '\\' !in ps[2];
    var acc := ps[0];
    NoBackslashAppend(acc, ps[1]);
    acc := acc + ps[1];
    NoBackslashAppend(acc, ps[2]);
    acc := acc + ps[2];
    assert acc == TypePart1Chunk0;
  }

  lemma TypePart1Chunk1NoBackslash()
    ensures '\\' !in TypePart1Chunk1
  {
    var ps := [" 'Element not found: "];
    assert '\\' !in ps[0];
    var acc := ps[0];
    assert acc == TypePart1Chunk1;
  }

  lemma TypePart1NoBackslash()
    ensures '\\' !in TypePart1
  {
    TypePart1Chunk0NoBackslash();
    TypePart1Chunk1NoBackslash();
    NoBackslashAppend(TypePart1Chunk0, TypePart1Chunk1);
  }

  lemma TypePart2Chunk0NoBackslash()
    ensures '\\' !in TypePart2Chunk0
  {
    var ps := ["';", "\n        }", "\n        "];
    assert '\\' !in ps[0];
    assert '\\' !in ps[1];
    assert '\\' !in ps[2];
    var acc := ps[0];
    NoBackslashAppend(acc, ps[1]);
    acc := acc + ps[1];
    NoBackslashAppend(acc, ps[2]);
    acc := acc + ps[2];
    assert acc == TypePart2Chunk0;
  }

  lemma TypePart2Chunk1NoBackslash()
    ensures '\\' !in TypePart2Chunk1
  {
    var ps := ["\n        // Focus the", " element", "\n       "];
    assert '\\' !in ps[0];
    assert '\\' !in ps[1];
    assert '\\' !in ps[2];
    var acc := ps[0];
    NoBackslashAppend(acc, ps[1]);
    acc := acc + ps[1];
    NoBackslashAppend(acc, ps[2]);
    acc := acc + ps[2];
    assert acc == TypePart2Chunk1;
  }

  lemma TypePart2Chunk2NoBackslash()
    ensures '\\' !in TypePart2Chunk2
  {
    var ps := [" element.focus();", "\n        ", "\n        // Clear if"];
    assert '\\' !in ps[0];
    assert '\\' !in ps[1];
    assert '\\' !in ps[2];
    var acc := ps[0];
    NoBackslashAppend(acc, ps[1]);
    acc := acc + ps[1];
    NoBackslashAppend(acc, ps[2]);
    acc := acc + ps[2];
    assert acc == TypePart2Chunk2;
  }

  lemma TypePart2Chunk3NoBackslash()
    ensures '\\' !in TypePart2Chunk3
  {
    var ps := [" requested", "\n        if ("];
    assert '\\' !in ps[0];
    assert '\\' !in ps[1];
    var acc := ps[0];
    NoBackslashAppend(acc, ps[1]);
    acc := acc + ps[1];
    assert acc == TypePart2Chunk3;
  }

  lemma TypePart2NoBackslash()
    ensures '\\' !in TypePart2
  {
    TypePart2Chunk0NoBackslash();
    TypePart2Chunk1NoBackslash();
    TypePart2Chunk2NoBackslash();
    TypePart2Chunk3NoBackslash();
    NoBackslashAppend(TypePart2Chunk0, TypePart2Chunk1);
    NoBackslashAppend(TypePart2Chunk0 + TypePart2Chunk1, TypePart2Chunk2);
    NoBackslashAppend(TypePart2Chunk0 + TypePart2Chunk1 + TypePart2Chunk2, TypePart2Chunk3);
  }

  lemma TypePart3Chunk0NoBackslash()
    ensures '\\' !in TypePart3Chunk0
  {
    var ps := [") {", "\n         ", " element.value = '';"];
    assert '\\' !in ps[0];
    assert '\\' !in ps[1];
    assert '\\' !in ps[2];
    var acc := ps[0];
    NoBackslashAppend(acc, ps[1]);
    acc := acc + ps[1];
    NoBackslashAppend(acc, ps[2]);
    acc := acc + ps[2];
    assert acc == TypePart3Chunk0;
  }

  lemma TypePart3Chunk1NoBackslash()
    ensures '\\' !in TypePart3Chunk1
  {
    var ps := ["\n        }", "\n        ", "\n        // Type the"];
    assert '\\' !in ps[0];
    assert '\\' !in ps[1];
    assert '\\' !in ps[2];
    var acc := ps[0];
    NoBackslashAppend(acc, ps[1]);
    acc := acc + ps[1];
    NoBackslashAppend(acc, ps[2]);
    acc := acc + ps[2];
    assert acc == TypePart3Chunk1;
  }

  lemma TypePart3Chunk2NoBackslash()
    ensures '\\' !in TypePart3Chunk2
  {
    var ps := [" text", "\n        element.value", " += \""];
    assert '\\' !in ps[0];
    assert '\\' !in ps[1];
    assert '\\' !in ps[2];
    var acc := ps[0];
    NoBackslashAppend(acc, ps[1]);
    acc := acc + ps[1];
    NoBackslashAppend(acc, ps[2]);
    acc := acc + ps[2];
    assert acc == TypePart3Chunk2;
  }

  lemma TypePart3NoBackslash()
    ensures '\\' !in TypePart3
  {
    TypePart3Chunk0NoBackslash();
    TypePart3Chunk1NoBackslash();
    TypePart3Chunk2NoBackslash();
    NoBackslashAppend(TypePart3Chunk0, TypePart3Chunk1);
    NoBackslashAppend(TypePart3Chunk0 + TypePart3Chunk1, TypePart3Chunk2);
  }

  lemma TypeTailChunk0NoBackslash()
    ensures '\\' !in TypeTailChunk0
  {
    var ps := ["\";", "\n        ", "\n        // Trigger"];
    assert '\\' !in ps[0];
    assert '\\' !in ps[1];
    assert '\\' !in ps[2];
    var acc := ps[0];
    NoBackslashAppend(acc, ps[1]);
    acc := acc + ps[1];
    NoBackslashAppend(acc, ps[2]);
    acc := acc + ps[2];
    assert acc == TypeTailChunk0;
  }

  lemma TypeTailChunk1NoBackslash()
    ensures '\\' !in TypeTailChunk1
  {
    var ps := [" input event", "\n        const", " inputEvent = new"];
    assert '\\' !in ps[0];
    assert '\\' !in ps[1];
    assert '\\' !in ps[2];
    var acc := ps[0];
    NoBackslashAppend(acc, ps[1]);
    acc := acc + ps[1];
    NoBackslashAppend(acc, ps[2]);
    acc := acc + ps[2];
    assert acc == TypeTailChunk1;
  }

  lemma TypeTailChunk2NoBackslash()
    ensures '\\' !in TypeTailChunk2
  {
    var ps := [" Event('input', {", " bubbles: true });", "\n       "];
    assert '\\' !in ps[0];
    assert '\\' !in ps[1];
    assert '\\' !in ps[2];
    var acc := ps[0];
    NoBackslashAppend(acc, ps[1]);
    acc := acc + ps[1];
    NoBackslashAppend(acc, ps[2]);
    acc := acc + ps[2];
    assert acc == TypeTailChunk2;
  }

  lemma TypeTailChunk3NoBackslash()
    ensures '\\' !in TypeTailChunk3
  {
    var ps := [" element.dispatchEvent(i", "nputEvent);", "\n        "];
    assert '\\' !in ps[0];
    assert '\\' !in ps[1];
    assert '\\' !in ps[2];
    var acc := ps[0];
    NoBackslashAppend(acc, ps[1]);
    acc := acc + ps[1];
    NoBackslashAppend(acc, ps[2]);
    acc := acc + ps[2];
    assert acc == TypeTailChunk3;
  }

  lemma TypeTailChunk4NoBackslash()
    ensures '\\' !in TypeTailChunk4
  {
    var ps := ["\n        // Trigger", " change event", "\n        const"];
    assert '\\' !in ps[0];
    assert '\\' !in ps[1];
    assert '\\' !in ps[2];
    var acc := ps[0];
    NoBackslashAppend(acc, ps[1]);
    acc := acc + ps[1];
    NoBackslashAppend(acc, ps[2]);
    acc := acc + ps[2];
    assert acc == TypeTailChunk4;
  }

  lemma TypeTailChunk5NoBackslash()
    ensures '\\' !in TypeTailChunk5
  {
    var ps := [" changeEvent = new", " Event('change', {", " bubbles: true });"];
    assert '\\' !in ps[0];
    assert '\\' !in ps[1];
    assert '\\' !in ps[2];
    var acc := ps[0];
    NoBackslashAppend(acc, ps[1]);
    acc := acc + ps[1];
    NoBackslashAppend(acc, ps[2]);
    acc := acc + ps[2];
    assert acc == TypeTailChunk5;
  }

  lemma TypeTailChunk6NoBackslash()
    ensures '\\' !in TypeTailChunk6
  {
    var ps := ["\n       ", " element.dispatchEvent(c", "hangeEvent);"];
    assert '\\' !in ps[0];
    assert '\\' !in ps[1];
    assert '\\' !in ps[2];
    var acc := ps[0];
    NoBackslashAppend(acc, ps[1]);
    acc := acc + ps[1];
    NoBackslashAppend(acc, ps[2]);
    acc := acc + ps[2];
    assert acc == TypeTailChunk6;
  }

  lemma TypeTailChunk7NoBackslash()
    ensures '\\' !in TypeTailChunk7
  {
    var ps := ["\n        ", "\n        return 'Typed", " text into: ' +"];
    assert '\\' !in ps[0];
    assert '\\' !in ps[1];
    assert '\\' !in ps[2];
    var acc := ps[0];
    NoBackslashAppend(acc, ps[1]);
    acc := acc + ps[1];
    NoBackslashAppend(acc, ps[2]);
    acc := acc + ps[2];
    assert acc == TypeTailChunk7;
  }

  lemma TypeTailChunk8NoBackslash()
    ensures '\\' !in TypeTailChunk8
  {
    var ps := [" element.tagName +", " (element.type ?", " '[type=' +"];
    assert '\\' !in ps[0];
    assert '\\' !in ps[1];
    assert '\\' !in ps[2];
    var acc := ps[0];
    NoBackslashAppend(acc, ps[1]);
    acc := acc + ps[1];
    NoBackslashAppend(acc, ps[2]);
    acc := acc + ps[2];
    assert acc == TypeTailChunk8;
  }

  lemma TypeTailChunk9NoBackslash()
    ensures '\\' !in TypeTailChunk9
  {
    var ps := [" element.type + ']' :", " '');", "\n      }"];
    assert '\\' !in ps[0];
    assert '\\' !in ps[1];
    assert '\\' !in ps[2];
    var acc := ps[0];
    NoBackslashAppend(acc, ps[1]);
    acc := acc + ps[1];
    NoBackslashAppend(acc, ps[2]);
    acc := acc + ps[2];
    assert acc == TypeTailChunk9;
  }

  lemma TypeTailChunk10NoBackslash()
    ensures '\\' !in TypeTailChunk10
  {
    var ps := ["\n    "];
    assert '\\' !in ps[0];
    var acc := ps[0];
    assert acc == TypeTailChunk10;
  }

  lemma TypeTailNoBackslash()
    ensures '\\' !in TypeTail
  {
    TypeTailChunk0NoBackslash();
    TypeTailChunk1NoBackslash();
    TypeTailChunk2NoBackslash();
    TypeTailChunk3NoBackslash();
    TypeTailChunk4NoBackslash();
    TypeTailChunk5NoBackslash();
    TypeTailChunk6NoBackslash();
    TypeTailChunk7NoBackslash();
    TypeTailChunk8NoBackslash();
    TypeTailChunk9NoBackslash();
    TypeTailChunk10NoBackslash();
    NoBackslashAppend(TypeTailChunk0, TypeTailChunk1);
    NoBackslashAppend(TypeTailChunk0 + TypeTailChunk1, TypeTailChunk2);
    NoBackslashAppend(TypeTailChunk0 + TypeTailChunk1 + TypeTailChunk2, TypeTailChunk3);
    NoBackslashAppend(TypeTailChunk0 + TypeTailChunk1 + TypeTailChunk2 + TypeTailChunk3, TypeTailChunk4);
    NoBackslashAppend(TypeTailChunk0 + TypeTailChunk1 + TypeTailChunk2 + TypeTailChunk3 + TypeTailChunk4, TypeTailChunk5);
    NoBackslashAppend(TypeTailChunk0 + TypeTailChunk1 + TypeTailChunk2 + TypeTailChunk3 + TypeTailChunk4 + TypeTailChunk5, TypeTailChunk6);
    NoBackslashAppend(TypeTailChunk0 + TypeTailChunk1 + TypeTailChunk2 + TypeTailChunk3 + TypeTailChunk4 + TypeTailChunk5 + TypeTailChunk6, TypeTailChunk7);
    NoBackslashAppend(TypeTailChunk0 + TypeTailChunk1 + TypeTailChunk2 + TypeTailChunk3 + TypeTailChunk4 + TypeTailChunk5 + TypeTailChunk6 + TypeTailChunk7, TypeTailChunk8);
    NoBackslashAppend(TypeTailChunk0 + TypeTailChunk1 + TypeTailChunk2 + TypeTailChunk3 + TypeTailChunk4 + TypeTailChunk5 + TypeTailChunk6 + TypeTailChunk7 + TypeTailChunk8, TypeTailChunk9);
    NoBackslashAppend(TypeTailChunk0 + TypeTailChunk1 + TypeTailChunk2 + TypeTailChunk3 + TypeTailChunk4 + TypeTailChunk5 + TypeTailChunk6 + TypeTailChunk7 + TypeTailChunk8 + TypeTailChunk9, TypeTailChunk10);
  }

  lemma ScrollElementHeadChunk0NoBackslash()
    ensures '\\' !in ScrollElementHeadChunk0
  {
    var ps := ["\n        function() {", "\n          const", " element ="];
    assert '\\' !in ps[0];
    assert '\\' !in ps[1];
    assert '\\' !in ps[2];
    var acc := ps[0];
    NoBackslashAppend(acc, ps[1]);
    acc := acc + ps[1];
    NoBackslashAppend(acc, ps[2]);
    acc := acc + ps[2];
    assert acc == ScrollElementHeadChunk0;
  }

  lemma ScrollElementHeadChunk1NoBackslash()
    ensures '\\' !in ScrollElementHeadChunk1
  {
    var ps := [" document.querySelector(", "\""];
    assert '\\' !in ps[0];
    assert '\\' !in ps[1];
    var acc := ps[0];
    NoBackslashAppend(acc, ps[1]);
    acc := acc + ps[1];
    assert acc == ScrollElementHeadChunk1;
  }

  lemma ScrollElementHeadNoBackslash()
    ensures '\\' !in ScrollElementHead
  {
    ScrollElementHeadChunk0NoBackslash();
    ScrollElementHeadChunk1NoBackslash();
    NoBackslashAppend(ScrollElementHeadChunk0, ScrollElementHeadChunk1);
  }

  lemma ScrollElementPart1Chunk0NoBackslash()
    ensures '\\' !in ScrollElementPart1Chunk0
  {
    var ps := ["\");", "\n          if", " (!element) {"];
    assert '\\' !in ps[0];
    assert '\\' !in ps[1];
    assert '\\' !in ps[2];
    var acc := ps[0];
    NoBackslashAppend(acc, ps[1]);
    acc := acc + ps[1];
    NoBackslashAppend(acc, ps[2]);
    acc := acc + ps[2];
    assert acc == ScrollElementPart1Chunk0;
  }

  lemma ScrollElementPart1Chunk1NoBackslash()
    ensures '\\' !in ScrollElementPart1Chunk1
  {
    var ps := ["\n            return", " 'Element not found: "];
    assert '\\' !in ps[0];
    assert '\\' !in ps[1];
    var acc := ps[0];
    NoBackslashAppend(acc, ps[1]);
    acc := acc + ps[1];
    assert acc == ScrollElementPart1Chunk1;
  }

  lemma ScrollElementPart1NoBackslash()
    ensures '\\' !in ScrollElementPart1
  {
    ScrollElementPart1Chunk0NoBackslash();
    ScrollElementPart1Chunk1NoBackslash();
    NoBackslashAppend(ScrollElementPart1Chunk0, ScrollElementPart1Chunk1);
  }

  lemma ScrollElementPart2Chunk0NoBackslash()
    ensures '\\' !in ScrollElementPart2Chunk0
  {
    var ps := ["';", "\n          }", "\n         "];
    assert '\\' !in ps[0];
    assert '\\' !in ps[1];
    assert '\\' !in ps[2];
    var acc := ps[0];
    NoBackslashAppend(acc, ps[1]);
    acc := acc + ps[1];
    NoBackslashAppend(acc, ps[2]);
    acc := acc + ps[2];
    assert acc == ScrollElementPart2Chunk0;
  }

  lemma ScrollElementPart2Chunk1NoBackslash()
    ensures '\\' !in ScrollElementPart2Chunk1
  {
    var ps := [" element.scrollIntoView(", "{ behavior: '"];
    assert '\\' !in ps[0];
    assert '\\' !in ps[1];
    var acc := ps[0];
    NoBackslashAppend(acc, ps[1]);
    acc := acc + ps[1];
    assert acc == ScrollElementPart2Chunk1;
  }

  lemma ScrollElementPart2NoBackslash()
    ensures '\\' !in ScrollElementPart2
  {
    ScrollElementPart2Chunk0NoBackslash();
    ScrollElementPart2Chunk1NoBackslash();
    NoBackslashAppend(ScrollElementPart2Chunk0, ScrollElementPart2Chunk1);
  }

  lemma ScrollElementPart3NoBackslash()
    ensures '\\' !in ScrollElementPart3
  {
    var ps := ["', block: 'center' });", "\n          return", " 'Scrolled to element: "];
    assert '\\' !in ps[0];
    assert '\\' !in ps[1];
    assert '\\' !in ps[2];
    var acc := ps[0];
    NoBackslashAppend(acc, ps[1]);
    acc := acc + ps[1];
    NoBackslashAppend(acc, ps[2]);
    acc := acc + ps[2];
    assert acc == ScrollElementPart3;
  }

  lemma ScrollElementTailNoBackslash()
    ensures '\\' !in ScrollElementTail
  {
    var ps := ["';", "\n        }", "\n      "];
    assert '\\' !in ps[0];
    assert '\\' !in ps[1];
    assert '\\' !in ps[2];
    var acc := ps[0];
    NoBackslashAppend(acc, ps[1]);
    acc := acc + ps[1];
    NoBackslashAppend(acc, ps[2]);
    acc := acc + ps[2];
    assert acc == ScrollElementTail;
  }

  lemma ScrollPositionHeadChunk0NoBackslash()
    ensures '\\' !in ScrollPositionHeadChunk0
  {
    var ps := ["\n        function() {", "\n         ", " window.scrollTo({"];
    assert '\\' !in ps[0];
    assert '\\' !in ps[1];
    assert '\\' !in ps[2];
    var acc := ps[0];
    NoBackslashAppend(acc, ps[1]);
    acc := acc + ps[1];
    NoBackslashAppend(acc, ps[2]);
    acc := acc + ps[2];
    assert acc == ScrollPositionHeadChunk0;
  }

  lemma ScrollPositionHeadChunk1NoBackslash()
    ensures '\\' !in ScrollPositionHeadChunk1
  {
    var ps := ["\n            left: "];
    assert '\\' !in ps[0];
    var acc := ps[0];
    assert acc == ScrollPositionHeadChunk1;
  }

  lemma ScrollPositionHeadNoBackslash()
    ensures '\\' !in ScrollPositionHead
  {
    ScrollPositionHeadChunk0NoBackslash();
    ScrollPositionHeadChunk1NoBackslash();
    NoBackslashAppend(ScrollPositionHeadChunk0, ScrollPositionHeadChunk1);
  }

  lemma ScrollPositionPart1NoBackslash()
    ensures '\\' !in ScrollPositionPart1
  {
    var ps := [",", "\n            top: "];
    assert '\\' !in ps[0];
    assert '\\' !in ps[1];
    var acc := ps[0];
    NoBackslashAppend(acc, ps[1]);
    acc := acc + ps[1];
    assert acc == ScrollPositionPart1;
  }

  lemma ScrollPositionPart2NoBackslash()
    ensures '\\' !in ScrollPositionPart2
  {
    var ps := [",", "\n            behavior: '"];
    assert '\\' !in ps[0];
    assert '\\' !in ps[1];
    var acc := ps[0];
    NoBackslashAppend(acc, ps[1]);
    acc := acc + ps[1];
    assert acc == ScrollPositionPart2;
  }

  lemma ScrollPositionPart3Chunk0NoBackslash()
    ensures '\\' !in ScrollPositionPart3Chunk0
  {
    var ps := ["'", "\n          });", "\n          return"];
    assert '\\' !in ps[0];
    assert '\\' !in ps[1];
    assert '\\' !in ps[2];
    var acc := ps[0];
    NoBackslashAppend(acc, ps[1]);
    acc := acc + ps[1];
    NoBackslashAppend(acc, ps[2]);
    acc := acc + ps[2];
    assert acc == ScrollPositionPart3Chunk0;
  }

  lemma ScrollPositionPart3Chunk1NoBackslash()
    ensures '\\' !in ScrollPositionPart3Chunk1
  {
    var ps := [" 'Scrolled to position:", " x="];
    assert '\\' !in ps[0];
    assert '\\' !in ps[1];
    var acc := ps[0];
    NoBackslashAppend(acc, ps[1]);
    acc := acc + ps[1];
    assert acc == ScrollPositionPart3Chunk1;
  }

  lemma ScrollPositionPart3NoBackslash()
    ensures '\\' !in ScrollPositionPart3
  {
    ScrollPositionPart3Chunk0NoBackslash();
    ScrollPositionPart3Chunk1NoBackslash();
    NoBackslashAppend(ScrollPositionPart3Chunk0, ScrollPositionPart3Chunk1);
  }

  lemma ScrollPositionPart4NoBackslash()
    ensures '\\' !in ScrollPositionPart4
  {
    var ps := [", y="];
    assert '\\' !in ps[0];
    var acc := ps[0];
    assert acc == ScrollPositionPart4;
  }

  lemma ScrollPositionTailNoBackslash()
    ensures '\\' !in ScrollPositionTail
  {
    var ps := ["';", "\n        }", "\n      "];
    assert '\\' !in ps[0];
    assert '\\' !in ps[1];
    assert '\\' !in ps[2];
    var acc := ps[0];
    NoBackslashAppend(acc, ps[1]);
    acc := acc + ps[1];
    NoBackslashAppend(acc, ps[2]);
    acc := acc + ps[2];
    assert acc == ScrollPositionTail;
  }

  lemma ByTextHeadChunk0NoBackslash()
    ensures '\\' !in ByTextHeadChunk0
  {
    var ps := ["\n        for (let", " option of", " element.options) {"];
    assert '\\' !in ps[0];
    assert '\\' !in ps[1];
    assert '\\' !in ps[2];
    var acc := ps[0];
    NoBackslashAppend(acc, ps[1]);
    acc := acc + ps[1];
    NoBackslashAppend(acc, ps[2]);
    acc := acc + ps[2];
    assert acc == ByTextHeadChunk0;
  }

  lemma ByTextHeadChunk1NoBackslash()
    ensures '\\' !in ByTextHeadChunk1
  {
    var ps := ["\n          if", " (option.text === \""];
    assert '\\' !in ps[0];
    assert '\\' !in ps[1];
    var acc := ps[0];
    NoBackslashAppend(acc, ps[1]);
    acc := acc + ps[1];
    assert acc == ByTextHeadChunk1;
  }

  lemma ByTextHeadNoBackslash()
    ensures '\\' !in ByTextHead
  {
    ByTextHeadChunk0NoBackslash();
    ByTextHeadChunk1NoBackslash();
    NoBackslashAppend(ByTextHeadChunk0, ByTextHeadChunk1);
  }

  lemma ByTextTailChunk0NoBackslash()
    ensures '\\' !in ByTextTailChunk0
  {
    var ps := ["\") {", "\n           ", " element.value ="];
    assert '\\' !in ps[0];
    assert '\\' !in ps[1];
    assert '\\' !in ps[2];
    var acc := ps[0];
    NoBackslashAppend(acc, ps[1]);
    acc := acc + ps[1];
    NoBackslashAppend(acc, ps[2]);
    acc := acc + ps[2];
    assert acc == ByTextTailChunk0;
  }

  lemma ByTextTailChunk1NoBackslash()
    ensures '\\' !in ByTextTailChunk1
  {
    var ps := [" option.value;", "\n            break;", "\n          }"];
    assert '\\' !in ps[0];
    assert '\\' !in ps[1];
    assert '\\' !in ps[2];
    var acc := ps[0];
    NoBackslashAppend(acc, ps[1]);
    acc := acc + ps[1];
    NoBackslashAppend(acc, ps[2]);
    acc := acc + ps[2];
    assert acc == ByTextTailChunk1;
  }

  lemma ByTextTailChunk2NoBackslash()
    ensures '\\' !in ByTextTailChunk2
  {
    var ps := ["\n        }", "\n      "];
    assert '\\' !in ps[0];
    assert '\\' !in ps[1];
    var acc := ps[0];
    NoBackslashAppend(acc, ps[1]);
    acc := acc + ps[1];
    assert acc == ByTextTailChunk2;
  }

  lemma ByTextTailNoBackslash()
    ensures '\\' !in ByTextTail
  {
    ByTextTailChunk0NoBackslash();
    ByTextTailChunk1NoBackslash();
    ByTextTailChunk2NoBackslash();
    NoBackslashAppend(ByTextTailChunk0, ByTextTailChunk1);
    NoBackslashAppend(ByTextTailChunk0 + ByTextTailChunk1, ByTextTailChunk2);
  }

  lemma SelectHeadChunk0NoBackslash()
    ensures '\\' !in SelectHeadChunk0
  {
    var ps := ["\n      function() {", "\n        const element", " ="];
    assert '\\' !in ps[0];
    assert '\\' !in ps[1];
    assert '\\' !in ps[2];
    var acc := ps[0];
    NoBackslashAppend(acc, ps[1]);
    acc := acc + ps[1];
    NoBackslashAppend(acc, ps[2]);
    acc := acc + ps[2];
    assert acc == SelectHeadChunk0;
  }

  lemma SelectHeadChunk1NoBackslash()
    ensures '\\' !in SelectHeadChunk1
  {
    var ps := [" document.querySelector(", "\""];
    assert '\\' !in ps[0];
    assert '\\' !in ps[1];
    var acc := ps[0];
    NoBackslashAppend(acc, ps[1]);
    acc := acc + ps[1];
    assert acc == SelectHeadChunk1;
  }

  lemma SelectHeadNoBackslash()
    ensures '\\' !in SelectHead
  {
    SelectHeadChunk0NoBackslash();
    SelectHeadChunk1NoBackslash();
    NoBackslashAppend(SelectHeadChunk0, SelectHeadChunk1);
  }

  lemma SelectPart1Chunk0NoBackslash()
    ensures '\\' !in SelectPart1Chunk0
  {
    var ps := ["\");", "\n        if (!element", " || element.tagName !=="];
    assert '\\' !in ps[0];
    assert '\\' !in ps[1];
    assert '\\' !in ps[2];
    var acc := ps[0];
    NoBackslashAppend(acc, ps[1]);
    acc := acc + ps[1];
    NoBackslashAppend(acc, ps[2]);
    acc := acc + ps[2];
    assert acc == SelectPart1Chunk0;
  }

  lemma SelectPart1Chunk1NoBackslash()
    ensures '\\' !in SelectPart1Chunk1
  {
    var ps := [" 'SELECT') {", "\n          return", " 'Select element not"];
    assert '\\' !in ps[0];
    assert '\\' !in ps[1];
    assert '\\' !in ps[2];
    var acc := ps[0];
    NoBackslashAppend(acc, ps[1]);
    acc := acc + ps[1];
    NoBackslashAppend(acc, ps[2]);
    acc := acc + ps[2];
    assert acc == SelectPart1Chunk1;
  }

  lemma SelectPart1Chunk2NoBackslash()
    ensures '\\' !in SelectPart1Chunk2
  {
    var ps := [" found: "];
    assert '\\' !in ps[0];
    var acc := ps[0];
    assert acc == SelectPart1Chunk2;
  }

  lemma SelectPart1NoBackslash()
    ensures '\\' !in SelectPart1
  {
    SelectPart1Chunk0NoBackslash();
    SelectPart1Chunk1NoBackslash();
    SelectPart1Chunk2NoBackslash();
    NoBackslashAppend(SelectPart1Chunk0, SelectPart1Chunk1);
    NoBackslashAppend(SelectPart1Chunk0 + SelectPart1Chunk1, SelectPart1Chunk2);
  }

  lemma SelectPart2Chunk0NoBackslash()
    ensures '\\' !in SelectPart2Chunk0
  {
    var ps := ["';", "\n        }", "\n        "];
    assert '\\' !in ps[0];
    assert '\\' !in ps[1];
    assert '\\' !in ps[2];
    var acc := ps[0];
    NoBackslashAppend(acc, ps[1]);
    acc := acc + ps[1];
    NoBackslashAppend(acc, ps[2]);
    acc := acc + ps[2];
    assert acc == SelectPart2Chunk0;
  }

  lemma SelectPart2Chunk1NoBackslash()
    ensures '\\' !in SelectPart2Chunk1
  {
    var ps := ["\n        "];
    assert '\\' !in ps[0];
    var acc := ps[0];
    assert acc == SelectPart2Chunk1;
  }

  lemma SelectPart2NoBackslash()
    ensures '\\' !in SelectPart2
  {
    SelectPart2Chunk0NoBackslash();
    SelectPart2Chunk1NoBackslash();
    NoBackslashAppend(SelectPart2Chunk0, SelectPart2Chunk1);
  }

  lemma SelectPart3Chunk0NoBackslash()
    ensures '\\' !in SelectPart3Chunk0
  {
    var ps := ["\n        ", "\n        // Trigger", " change event"];
    assert '\\' !in ps[0];
    assert '\\' !in ps[1];
    assert '\\' !in ps[2];
    var acc := ps[0];
    NoBackslashAppend(acc, ps[1]);
    acc := acc + ps[1];
    NoBackslashAppend(acc, ps[2]);
    acc := acc + ps[2];
    assert acc == SelectPart3Chunk0;
  }

  lemma SelectPart3Chunk1NoBackslash()
    ensures '\\' !in SelectPart3Chunk1
  {
    var ps := ["\n        const", " changeEvent = new", " Event('change', {"];
    assert '\\' !in ps[0];
    assert '\\' !in ps[1];
    assert '\\' !in ps[2];
    var acc := ps[0];
    NoBackslashAppend(acc, ps[1]);
    acc := acc + ps[1];
    NoBackslashAppend(acc, ps[2]);
    acc := acc + ps[2];
    assert acc == SelectPart3Chunk1;
  }

  lemma SelectPart3Chunk2NoBackslash()
    ensures '\\' !in SelectPart3Chunk2
  {
    var ps := [" bubbles: true });", "\n       ", " element.dispatchEvent(c"];
    assert '\\' !in ps[0];
    assert '\\' !in ps[1];
    assert '\\' !in ps[2];
    var acc := ps[0];
    NoBackslashAppend(acc, ps[1]);
    acc := acc + ps[1];
    NoBackslashAppend(acc, ps[2]);
    acc := acc + ps[2];
    assert acc == SelectPart3Chunk2;
  }

  lemma SelectPart3Chunk3NoBackslash()
    ensures '\\' !in SelectPart3Chunk3
  {
    var ps := ["hangeEvent);", "\n        ", "\n        return"];
    assert '\\' !in ps[0];
    assert '\\' !in ps[1];
    assert '\\' !in ps[2];
    var acc := ps[0];
    NoBackslashAppend(acc, ps[1]);
    acc := acc + ps[1];
    NoBackslashAppend(acc, ps[2]);
    acc := acc + ps[2];
    assert acc == SelectPart3Chunk3;
  }

  lemma SelectPart3Chunk4NoBackslash()
    ensures '\\' !in SelectPart3Chunk4
  {
    var ps := [" 'Selected option in: '", " + element.name ||", " element.id || '"];
    assert '\\' !in ps[0];
    assert '\\' !in ps[1];
    assert '\\' !in ps[2];
    var acc := ps[0];
    NoBackslashAppend(acc, ps[1]);
    acc := acc + ps[1];
    NoBackslashAppend(acc, ps[2]);
    acc := acc + ps[2];
    assert acc == SelectPart3Chunk4;
  }

  lemma SelectPart3NoBackslash()
    ensures '\\' !in SelectPart3
  {
    SelectPart3Chunk0NoBackslash();
    SelectPart3Chunk1NoBackslash();
    SelectPart3Chunk2NoBackslash();
    SelectPart3Chunk3NoBackslash();
    SelectPart3Chunk4NoBackslash();
    NoBackslashAppend(SelectPart3Chunk0, SelectPart3Chunk1);
    NoBackslashAppend(SelectPart3Chunk0 + SelectPart3Chunk1, SelectPart3Chunk2);
    NoBackslashAppend(SelectPart3Chunk0 + SelectPart3Chunk1 + SelectPart3Chunk2, SelectPart3Chunk3);
    NoBackslashAppend(SelectPart3Chunk0 + SelectPart3Chunk1 + SelectPart3Chunk2 + SelectPart3Chunk3, SelectPart3Chunk4);
  }

  lemma SelectTailNoBackslash()
    ensures '\\' !in SelectTail
  {
    var ps := ["';", "\n      }", "\n    "];
    assert '\\' !in ps[0];
    assert '\\' !in ps[1];
    assert '\\' !in ps[2];
    var acc := ps[0];
    NoBackslashAppend(acc, ps[1]);
    acc := acc + ps[1];
    NoBackslashAppend(acc, ps[2]);
    acc := acc + ps[2];
    assert acc == SelectTail;
  }

  lemma ElementTextHeadChunk0NoBackslash()
    ensures '\\' !in ElementTextHeadChunk0
  {
    var ps := ["\n      function() {", "\n        const element", " ="];
    assert '\\' !in ps[0];
    assert '\\' !in ps[1];
    assert '\\' !in ps[2];
    var acc := ps[0];
    NoBackslashAppend(acc, ps[1]);
    acc := acc + ps[1];
    NoBackslashAppend(acc, ps[2]);
    acc := acc + ps[2];
    assert acc == ElementTextHeadChunk0;
  }

  lemma ElementTextHeadChunk1NoBackslash()
    ensures '\\' !in ElementTextHeadChunk1
  {
    var ps := [" document.querySelector(", "\""];
    assert '\\' !in ps[0];
    assert '\\' !in ps[1];
    var acc := ps[0];
    NoBackslashAppend(acc, ps[1]);
    acc := acc + ps[1];
    assert acc == ElementTextHeadChunk1;
  }

  lemma ElementTextHeadNoBackslash()
    ensures '\\' !in ElementTextHead
  {
    ElementTextHeadChunk0NoBackslash();
    ElementTextHeadChunk1NoBackslash();
    NoBackslashAppend(ElementTextHeadChunk0, ElementTextHeadChunk1);
  }

  lemma ElementTextPart1Chunk0NoBackslash()
    ensures '\\' !in ElementTextPart1Chunk0
  {
    var ps := ["\");", "\n        if (!element) {", "\n          return"];
    assert '\\' !in ps[0];
    assert '\\' !in ps[1];
    assert '\\' !in ps[2];
    var acc := ps[0];
    NoBackslashAppend(acc, ps[1]);
    acc := acc + ps[1];
    NoBackslashAppend(acc, ps[2]);
    acc := acc + ps[2];
    assert acc == ElementTextPart1Chunk0;
  }

  lemma ElementTextPart1Chunk1NoBackslash()
    ensures '\\' !in ElementTextPart1Chunk1
  {
    var ps := [" 'Element not found: "];
    assert '\\' !in ps[0];
    var acc := ps[0];
    assert acc == ElementTextPart1Chunk1;
  }

  lemma ElementTextPart1NoBackslash()
    ensures '\\' !in ElementTextPart1
  {
    ElementTextPart1Chunk0NoBackslash();
    ElementTextPart1Chunk1NoBackslash();
    NoBackslashAppend(ElementTextPart1Chunk0, ElementTextPart1Chunk1);
  }

  lemma ElementTextTailChunk0NoBackslash()
    ensures '\\' !in ElementTextTailChunk0
  {
    var ps := ["';", "\n        }", "\n        return"];
    assert '\\' !in ps[0];
    assert '\\' !in ps[1];
    assert '\\' !in ps[2];
    var acc := ps[0];
    NoBackslashAppend(acc, ps[1]);
    acc := acc + ps[1];
    NoBackslashAppend(acc, ps[2]);
    acc := acc + ps[2];
    assert acc == ElementTextTailChunk0;
  }

  lemma ElementTextTailChunk1NoBackslash()
    ensures '\\' !in ElementTextTailChunk1
  {
    var ps := [" element.textContent ||", " element.innerText ||", " '';"];
    assert '\\' !in ps[0];
    assert '\\' !in ps[1];
    assert '\\' !in ps[2];
    var acc := ps[0];
    NoBackslashAppend(acc, ps[1]);
    acc := acc + ps[1];
    NoBackslashAppend(acc, ps[2]);
    acc := acc + ps[2];
    assert acc == ElementTextTailChunk1;
  }

  lemma ElementTextTailChunk2NoBackslash()
    ensures '\\' !in ElementTextTailChunk2
  {
    var ps := ["\n      }", "\n    "];
    assert '\\' !in ps[0];
    assert '\\' !in ps[1];
    var acc := ps[0];
    NoBackslashAppend(acc, ps[1]);
    acc := acc + ps[1];
    assert acc == ElementTextTailChunk2;
  }

  lemma ElementTextTailNoBackslash()
    ensures '\\' !in ElementTextTail
  {
    ElementTextTailChunk0NoBackslash();
    ElementTextTailChunk1NoBackslash();
    ElementTextTailChunk2NoBackslash();
    NoBackslashAppend(ElementTextTailChunk0, ElementTextTailChunk1);
    NoBackslashAppend(ElementTextTailChunk0 + ElementTextTailChunk1, ElementTextTailChunk2);
  }

  lemma CheckHeadChunk0NoBackslash()
    ensures '\\' !in CheckHeadChunk0
  {
    var ps := ["\n        function() {", "\n          const", " element ="];
    assert '\\' !in ps[0];
    assert '\\' !in ps[1];
    assert '\\' !in ps[2];
    var acc := ps[0];
    NoBackslashAppend(acc, ps[1]);
    acc := acc + ps[1];
    NoBackslashAppend(acc, ps[2]);
    acc := acc + ps[2];
    assert acc == CheckHeadChunk0;
  }

  lemma CheckHeadChunk1NoBackslash()
    ensures '\\' !in CheckHeadChunk1
  {
    var ps := [" document.querySelector(", "\""];
    assert '\\' !in ps[0];
    assert '\\' !in ps[1];
    var acc := ps[0];
    NoBackslashAppend(acc, ps[1]);
    acc := acc + ps[1];
    assert acc == CheckHeadChunk1;
  }

  lemma CheckHeadNoBackslash()
    ensures '\\' !in CheckHead
  {
    CheckHeadChunk0NoBackslash();
    CheckHeadChunk1NoBackslash();
    NoBackslashAppend(CheckHeadChunk0, CheckHeadChunk1);
  }

  lemma CheckPart1Chunk0NoBackslash()
    ensures '\\' !in CheckPart1Chunk0
  {
    var ps := ["\");", "\n          if", " (!element) return"];
    assert '\\' !in ps[0];
    assert '\\' !in ps[1];
    assert '\\' !in ps[2];
    var acc := ps[0];
    NoBackslashAppend(acc, ps[1]);
    acc := acc + ps[1];
    NoBackslashAppend(acc, ps[2]);
    acc := acc + ps[2];
    assert acc == CheckPart1Chunk0;
  }

  lemma CheckPart1Chunk1NoBackslash()
    ensures '\\' !in CheckPart1Chunk1
  {
    var ps := [" false;", "\n          ", "\n          if ("];
    assert '\\' !in ps[0];
    assert '\\' !in ps[1];
    assert '\\' !in ps[2];
    var acc := ps[0];
    NoBackslashAppend(acc, ps[1]);
    acc := acc + ps[1];
    NoBackslashAppend(acc, ps[2]);
    acc := acc + ps[2];
    assert acc == CheckPart1Chunk1;
  }

  lemma CheckPart1NoBackslash()
    ensures '\\' !in CheckPart1
  {
    CheckPart1Chunk0NoBackslash();
    CheckPart1Chunk1NoBackslash();
    NoBackslashAppend(CheckPart1Chunk0, CheckPart1Chunk1);
  }

  lemma CheckTailChunk0NoBackslash()
    ensures '\\' !in CheckTailChunk0
  {
    var ps := [") {", "\n            const rect", " ="];
    assert '\\' !in ps[0];
    assert '\\' !in ps[1];
    assert '\\' !in ps[2];
    var acc := ps[0];
    NoBackslashAppend(acc, ps[1]);
    acc := acc + ps[1];
    NoBackslashAppend(acc, ps[2]);
    acc := acc + ps[2];
    assert acc == CheckTailChunk0;
  }

  lemma CheckTailChunk1NoBackslash()
    ensures '\\' !in CheckTailChunk1
  {
    var ps := [" element.getBoundingClie", "ntRect();", "\n            const"];
    assert '\\' !in ps[0];
    assert '\\' !in ps[1];
    assert '\\' !in ps[2];
    var acc := ps[0];
    NoBackslashAppend(acc, ps[1]);
    acc := acc + ps[1];
    NoBackslashAppend(acc, ps[2]);
    acc := acc + ps[2];
    assert acc == CheckTailChunk1;
  }

  lemma CheckTailChunk2NoBackslash()
    ensures '\\' !in CheckTailChunk2
  {
    var ps := [" isVisible = rect.width", " > 0 && rect.height > 0", " && "];
    assert '\\' !in ps[0];
    assert '\\' !in ps[1];
    assert '\\' !in ps[2];
    var acc := ps[0];
    NoBackslashAppend(acc, ps[1]);
    acc := acc + ps[1];
    NoBackslashAppend(acc, ps[2]);
    acc := acc + ps[2];
    assert acc == CheckTailChunk2;
  }

  lemma CheckTailChunk3NoBackslash()
    ensures '\\' !in CheckTailChunk3
  {
    var ps := ["\n                      ", "      rect.top <", " window.innerHeight && "];
    assert '\\' !in ps[0];
    assert '\\' !in ps[1];
    assert '\\' !in ps[2];
    var acc := ps[0];
    NoBackslashAppend(acc, ps[1]);
    acc := acc + ps[1];
    NoBackslashAppend(acc, ps[2]);
    acc := acc + ps[2];
    assert acc == CheckTailChunk3;
  }

  lemma CheckTailChunk4NoBackslash()
    ensures '\\' !in CheckTailChunk4
  {
    var ps := ["\n                      ", "      rect.bottom > 0;", "\n            return"];
    assert '\\' !in ps[0];
    assert '\\' !in ps[1];
    assert '\\' !in ps[2];
    var acc := ps[0];
    NoBackslashAppend(acc, ps[1]);
    acc := acc + ps[1];
    NoBackslashAppend(acc, ps[2]);
    acc := acc + ps[2];
    assert acc == CheckTailChunk4;
  }

  lemma CheckTailChunk5NoBackslash()
    ensures '\\' !in CheckTailChunk5
  {
    var ps := [" isVisible;", "\n          }", "\n          "];
    assert '\\' !in ps[0];
    assert '\\' !in ps[1];
    assert '\\' !in ps[2];
    var acc := ps[0];
    NoBackslashAppend(acc, ps[1]);
    acc := acc + ps[1];
    NoBackslashAppend(acc, ps[2]);
    acc := acc + ps[2];
    assert acc == CheckTailChunk5;
  }

  lemma CheckTailChunk6NoBackslash()
    ensures '\\' !in CheckTailChunk6
  {
    var ps := ["\n          return true;", "\n        }", "\n      "];
    assert '\\' !in ps[0];
    assert '\\' !in ps[1];
    assert '\\' !in ps[2];
    var acc := ps[0];
    NoBackslashAppend(acc, ps[1]);
    acc := acc + ps[1];
    NoBackslashAppend(acc, ps[2]);
    acc := acc + ps[2];
    assert acc == CheckTailChunk6;
  }

  lemma CheckTailNoBackslash()
    ensures '\\' !in CheckTail
  {
    CheckTailChunk0NoBackslash();
    CheckTailChunk1NoBackslash();
    CheckTailChunk2NoBackslash();
    CheckTailChunk3NoBackslash();
    CheckTailChunk4NoBackslash();
    CheckTailChunk5NoBackslash();
    CheckTailChunk6NoBackslash();
    NoBackslashAppend(CheckTailChunk0, CheckTailChunk1);
    NoBackslashAppend(CheckTailChunk0 + CheckTailChunk1, CheckTailChunk2);
    NoBackslashAppend(CheckTailChunk0 + CheckTailChunk1 + CheckTailChunk2, CheckTailChunk3);
    NoBackslashAppend(CheckTailChunk0 + CheckTailChunk1 + CheckTailChunk2 + CheckTailChunk3, CheckTailChunk4);
    NoBackslashAppend(CheckTailChunk0 + CheckTailChunk1 + CheckTailChunk2 + CheckTailChunk3 + CheckTailChunk4, CheckTailChunk5);
    NoBackslashAppend(CheckTailChunk0 + CheckTailChunk1 + CheckTailChunk2 + CheckTailChunk3 + CheckTailChunk4 + CheckTailChunk5, CheckTailChunk6);
  }

  lemma NoScrollTargetScriptChunk0NoBackslash()
    ensures '\\' !in NoScrollTargetScriptChunk0
  {
    var ps := ["\n        function() {", "\n          return 'No", " scroll target"];
    assert '\\' !in ps[0];
    assert '\\' !in ps[1];
    assert '\\' !in ps[2];
    var acc := ps[0];
    NoBackslashAppend(acc, ps[1]);
    acc := acc + ps[1];
    NoBackslashAppend(acc, ps[2]);
    acc := acc + ps[2];
    assert acc == NoScrollTargetScriptChunk0;
  }

  lemma NoScrollTargetScriptChunk1NoBackslash()
    ensures '\\' !in NoScrollTargetScriptChunk1
  {
    var ps := [" specified';", "\n        }", "\n      "];
    assert '\\' !in ps[0];
    assert '\\' !in ps[1];
    assert '\\' !in ps[2];
    var acc := ps[0];
    NoBackslashAppend(acc, ps[1]);
    acc := acc + ps[1];
    NoBackslashAppend(acc, ps[2]);
    acc := acc + ps[2];
    assert acc == NoScrollTargetScriptChunk1;
  }

  lemma NoScrollTargetScriptNoBackslash()
    ensures '\\' !in NoScrollTargetScript
  {
    NoScrollTargetScriptChunk0NoBackslash();
    NoScrollTargetScriptChunk1NoBackslash();
    NoBackslashAppend(NoScrollTargetScriptChunk0, NoScrollTargetScriptChunk1);
  }
}
