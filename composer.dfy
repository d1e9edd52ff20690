/**
 * The preview document composer, `buildSrcDoc(html, css, js)`: one template
 * literal with three substitutions, the CSS, the markup and the script, in
 * that order. Its four fixed strings are spelled out below, cut into named
 * fragments where a property needs a boundary. Nothing in a buffer is parsed:
 * each is copied verbatim.
 */
module Composer {
  import opened Wrappers
  import opened Template

  /** The three editor buffers. */
  datatype Sources = Sources(html: string, css: string, js: string)

  // The first fixed string: the document head, up to where the CSS goes.

  const DocHead: string :=
    "<!doctype html>\n"
    + "<html>\n"
    + "<head>\n"
    + "<meta charset=\"utf-8\" />\n"
    + "<meta name=\"viewport\" content=\"width=device-width,initial-scale=1\" />\n"
  const StyleOpen: string := "<style>"
  const ResetLead: string := "\n  /* reset preview background so it looks clean */\n  "
  /** The baseline reset rule that the user's CSS follows in the same style block. */
  const ResetRule: string :=
    "html,body{height:100%;margin:0;background:white;color:#111;font-family:Inter,system-ui,Arial;}"
  const CssLead: string := "\n  "
  const Head: string := DocHead + StyleOpen + ResetLead + ResetRule + CssLead

  // The second fixed string: from the end of the CSS to where the markup goes.

  const StyleClose: string := "\n</style>"
  const HeadClose: string := "\n</head>\n"
  const BodyOpen: string := "<body>\n"
  const StyleToBody: string := StyleClose + HeadClose + BodyOpen

  // The third fixed string: from the end of the markup to where the script goes.

  const BlankLine: string := "\n\n"
  const ScriptOpen: string := "<script>"
  const ScriptClose: string := "</script>"

  /** The protocol marker the console shim puts on every message it posts. */
  const MarkerField: string := "__neon_console: true"

  /** The line of the shim's `send` that posts a message, split around the marker. */
  const PostOpen: string := "        parent.postMessage({ "
  const PostClose: string := ", type: type, args: args }, '*');"
  const PostLine: string := PostOpen + MarkerField + PostClose

  /**
   * The console shim, line by line: `send` posts its type and arguments to
   * the parent, every console method is wrapped to call `send` before the
   * original, and uncaught errors are sent as `error` messages.
   */
  const SendLines: seq<string> := [
    "",
    "  // capture console and forward messages to parent",
    "  (function(){",
    "    function send(type, args){",
    "      try{"
  ]
  const ForwardLines: seq<string> := [
    "      }catch(e){}",
    "    }",
    "    const methods = ['log','warn','error','info','debug'];",
    "    methods.forEach(m => {",
    "      const orig = console[m];",
    "      console[m] = function(){",
    "        send(m, Array.from(arguments).map(a => {",
    "          try{ return typeof a === 'object' ? JSON.stringify(a) : String(a); }catch(e){ return String(a); }",
    "        }));",
    "        orig.apply(console, arguments);",
    "      };",
    "    });",
    "",
    "    window.addEventListener('error', function(e){",
    "      send('error', [e.message + ' (' + e.filename + ':' + e.lineno + ')' ]);",
    "    });",
    "  })();"
  ]
  const ShimLines: seq<string> := SendLines + [PostLine] + ForwardLines
  /** The body of the first script element, the console-forwarding shim. */
  const ShimBody: string := Unlines(ShimLines)

  /** Opens the guard around the user script. */
  const TryOpen: string := "try {\n  "
  /** A line break between the opening script tag and the guard. */
  const LineBreak: string := "\n"
  /** The shim script element, then the user script element up to the guarded script. */
  const BodyToScript: string :=
    BlankLine + ScriptOpen + ShimBody + ScriptClose + BlankLine + ScriptOpen + LineBreak + TryOpen

  // The fourth fixed string: from the end of the script to the end of the document.

  /** Closes the guard: a thrown value is reported through `console.error`. */
  const CatchClause: string :=
    "\n} catch(e) {\n"
    + "  console.error('Preview JS Error: ' + e);\n"
    + "}"
  const DocTail: string := "\n</script>\n</body>\n</html>"
  const Tail: string := CatchClause + DocTail

  /** The template literal's fixed strings; the substitutions are `[css, html, js]`. */
  const SrcDocStrings: seq<string> := [Head, StyleToBody, BodyToScript, Tail]

  // Where the substitutions land, as functions of the lengths of the buffers before them.

  const CssAt: nat := |Head|

  function HtmlAt(cssLen: nat): nat
  {
    CssAt + cssLen + |StyleToBody|
  }

  function JsAt(cssLen: nat, htmlLen: nat): nat
  {
    HtmlAt(cssLen) + htmlLen + |BodyToScript|
  }

  /** The length of the document for three empty buffers. */
  const FixedLength: nat := |Head| + |StyleToBody| + |BodyToScript| + |Tail|

  /**
   * The preview document: each buffer copied verbatim at its place in the
   * fixed template, the CSS in the style block, the markup in the body, the
   * script inside the guard after the console shim.
   */
  function BuildSrcDoc(html: string, css: string, js: string): (doc: string)
    ensures |doc| == FixedLength + |css| + |html| + |js|
  {
    Fill3(Head, StyleToBody, BodyToScript, Tail, css, html, js);
    Fill(SrcDocStrings, [css, html, js])
  }

  /*
   * The lemmas below first state each fact for any fixed strings cut the way
   * the template's are, and then for the template itself. Every fact is one
   * occurrence of one contiguous run of text, so that each can be read off the
   * document on its own.
   */

  /**
   * The style element's span, for any fixed strings cut like the template's head.
   * Taking the pieces as parameters keeps the solver off the long literal constants.
   */
  lemma StyleShape(h1: string, h2: string, h3: string, h4: string, h5: string,
                   m1: string, m2: string, m3: string, s2: string, s3: string,
                   css: string, html: string, js: string)
    ensures Occurs(Fill([h1 + h2 + h3 + h4 + h5, m1 + m2 + m3, s2, s3], [css, html, js]),
                   h2 + h3 + h4 + h5 + css + m1, |h1|)
  {
    Fill3(h1 + h2 + h3 + h4 + h5, m1 + m2 + m3, s2, s3, css, html, js);
    var span := h2 + h3 + h4 + h5 + css + m1;
    var after := m2 + m3 + html + s2 + js + s3;
    assert Fill([h1 + h2 + h3 + h4 + h5, m1 + m2 + m3, s2, s3], [css, html, js]) == h1 + span + after;
    OccursMiddle(h1, span, after);
  }

  /**
   * The user's CSS sits in the template's one style element, right after the
   * baseline reset rule (separated by a line break and indent), and the
   * element closes right after it.
   */
  lemma StyleElement(html: string, css: string, js: string)
    ensures Occurs(BuildSrcDoc(html, css, js),
                   StyleOpen + ResetLead + ResetRule + CssLead + css + StyleClose, |DocHead|)
  {
    StyleShape(DocHead, StyleOpen, ResetLead, ResetRule, CssLead, StyleClose, HeadClose, BodyOpen,
               BodyToScript, Tail, css, html, js);
  }

  /** The span around the markup, for any fixed strings cut like the template's; parameters instead of the literal constants keep the proof cheap. */
  lemma BodyShape(s0: string, m1: string, m2: string, m3: string,
                  b1: string, b2: string, b3: string, b4: string, b5: string, b6: string, b7: string, b8: string,
                  s3: string, css: string, html: string, js: string)
    ensures Occurs(Fill([s0, m1 + m2 + m3, b1 + b2 + b3 + b4 + b5 + b6 + b7 + b8, s3], [css, html, js]),
                   m3 + html + b1 + b2, |s0| + |css| + |m1| + |m2|)
  {
    Fill3(s0, m1 + m2 + m3, b1 + b2 + b3 + b4 + b5 + b6 + b7 + b8, s3, css, html, js);
    var before := s0 + css + m1 + m2;
    var span := m3 + html + b1 + b2;
    var after := b3 + b4 + b5 + b6 + b7 + b8 + js + s3;
    assert Fill([s0, m1 + m2 + m3, b1 + b2 + b3 + b4 + b5 + b6 + b7 + b8, s3], [css, html, js])
        == before + span + after;
    OccursMiddle(before, span, after);
  }

  /**
   * The markup follows the opening body tag and a line break, and after it
   * and a blank line the template's first script element, the shim's, opens.
   */
  lemma MarkupInBody(html: string, css: string, js: string)
    ensures Occurs(BuildSrcDoc(html, css, js), BodyOpen + html + BlankLine + ScriptOpen, HtmlAt(|css|) - |BodyOpen|)
  {
    BodyShape(Head, StyleClose, HeadClose, BodyOpen,
              BlankLine, ScriptOpen, ShimBody, ScriptClose, BlankLine, ScriptOpen, LineBreak, TryOpen,
              Tail, css, html, js);
  }

  /** The span from the shim to the user script, for any fixed strings cut like the template's; parameters instead of the literal constants keep the proof cheap. */
  lemma ShimShape(s0: string, s1: string,
                  b1: string, b2: string, b3: string, b4: string, b5: string, b6: string, b7: string, b8: string,
                  s3: string, css: string, html: string, js: string)
    ensures Occurs(Fill([s0, s1, b1 + b2 + b3 + b4 + b5 + b6 + b7 + b8, s3], [css, html, js]),
                   b3 + b4 + b5 + b6 + b7 + b8 + js, |s0| + |css| + |s1| + |html| + |b1| + |b2|)
  {
    Fill3(s0, s1, b1 + b2 + b3 + b4 + b5 + b6 + b7 + b8, s3, css, html, js);
    var before := s0 + css + s1 + html + b1 + b2;
    var span := b3 + b4 + b5 + b6 + b7 + b8 + js;
    assert Fill([s0, s1, b1 + b2 + b3 + b4 + b5 + b6 + b7 + b8, s3], [css, html, js])
        == before + span + s3;
    OccursMiddle(before, span, s3);
  }

  /**
   * The console shim runs before the user script: its body is followed by the
   * end of its script element, a blank line, the user script element's
   * opening tag and the guard, and only then the user's script.
   */
  lemma ShimBeforeUserScript(html: string, css: string, js: string)
    ensures Occurs(BuildSrcDoc(html, css, js),
                   ShimBody + ScriptClose + BlankLine + ScriptOpen + LineBreak + TryOpen + js,
                   HtmlAt(|css|) + |html| + |BlankLine| + |ScriptOpen|)
  {
    ShimShape(Head, StyleToBody,
              BlankLine, ScriptOpen, ShimBody, ScriptClose, BlankLine, ScriptOpen, LineBreak, TryOpen,
              Tail, css, html, js);
  }

  /** The line of the shim that posts every message carries the protocol marker. */
  lemma ShimCarriesMarker()
    ensures Occurs(ShimBody, PostLine, |Unlines(SendLines)|)
    ensures Occurs(PostLine, MarkerField, |PostOpen|)
  {
    UnlinesLineAt(SendLines, PostLine, ForwardLines);
    OccursMiddle(PostOpen, MarkerField, PostClose);
  }

  /** The span around the user script, for any fixed strings cut like the template's; parameters instead of the literal constants keep the proof cheap. */
  lemma GuardShape(s0: string, s1: string,
                   b1: string, b2: string, b3: string, b4: string, b5: string, b6: string, b7: string, b8: string,
                   t1: string, t2: string, css: string, html: string, js: string)
    ensures Occurs(Fill([s0, s1, b1 + b2 + b3 + b4 + b5 + b6 + b7 + b8, t1 + t2], [css, html, js]),
                   b8 + js + t1, |s0| + |css| + |s1| + |html| + |b1 + b2 + b3 + b4 + b5 + b6 + b7|)
  {
    Fill3(s0, s1, b1 + b2 + b3 + b4 + b5 + b6 + b7 + b8, t1 + t2, css, html, js);
    var before := s0 + css + s1 + html + (b1 + b2 + b3 + b4 + b5 + b6 + b7);
    var span := b8 + js + t1;
    assert Fill([s0, s1, b1 + b2 + b3 + b4 + b5 + b6 + b7 + b8, t1 + t2], [css, html, js])
        == before + span + t2;
    OccursMiddle(before, span, t2);
  }

  /** The user script is enclosed by the guard: `try {`, a line break and an indent before it, the catch clause right after. */
  lemma UserScriptGuarded(html: string, css: string, js: string)
    ensures Occurs(BuildSrcDoc(html, css, js), TryOpen + js + CatchClause, JsAt(|css|, |html|) - |TryOpen|)
  {
    GuardShape(Head, StyleToBody,
               BlankLine, ScriptOpen, ShimBody, ScriptClose, BlankLine, ScriptOpen, LineBreak, TryOpen,
               CatchClause, DocTail, css, html, js);
  }

  /**
   * Reads the three buffers back out of a document, given the lengths of the
   * CSS and the markup (the script takes what is left). Fails unless every
   * fixed string of the template is where those lengths put it.
   */
  function Decompose(doc: string, cssLen: nat, htmlLen: nat): Option<Sources>
  {
    if |doc| < FixedLength + cssLen + htmlLen then None
    else
      var lengths := [cssLen, htmlLen, |doc| - FixedLength - cssLen - htmlLen];
      FillUnfill(SrcDocStrings, doc, lengths);
      match Unfill(SrcDocStrings, doc, lengths)
      case None => None
      case Some(values) => Some(Sources(values[1], values[0], values[2]))
  }

  /** Decomposing a composed document gives back exactly the buffers it was composed from. */
  lemma DecomposeBuild(s: Sources)
    ensures Decompose(BuildSrcDoc(s.html, s.css, s.js), |s.css|, |s.html|) == Some(s)
  {
    UnfillFill(SrcDocStrings, [s.css, s.html, s.js], [|s.css|, |s.html|, |s.js|]);
  }

  /** Unfilling a literal with three substitutions gives three values of the given lengths that fill back to the text. */
  lemma UnfillThree(strings: seq<string>, doc: string, lengths: seq<nat>)
    requires |strings| == 4 && |lengths| == 3
    ensures Unfill(strings, doc, lengths).Some? ==>
      var v := Unfill(strings, doc, lengths).value;
      |v| == 3 && |v[0]| == lengths[0] && |v[1]| == lengths[1] && Fill(strings, [v[0], v[1], v[2]]) == doc
  {
    FillUnfill(strings, doc, lengths);
    if Unfill(strings, doc, lengths).Some? {
      var v := Unfill(strings, doc, lengths).value;
      assert v == [v[0], v[1], v[2]];
    }
  }

  /** Whatever `Decompose` accepts is a composed document, namely the one its result composes to. */
  lemma BuildDecompose(doc: string, cssLen: nat, htmlLen: nat)
    ensures Decompose(doc, cssLen, htmlLen).Some? ==>
      var s := Decompose(doc, cssLen, htmlLen).value;
      |s.css| == cssLen && |s.html| == htmlLen && BuildSrcDoc(s.html, s.css, s.js) == doc
  {
    if |doc| >= FixedLength + cssLen + htmlLen {
      UnfillThree(SrcDocStrings, doc, [cssLen, htmlLen, |doc| - FixedLength - cssLen - htmlLen]);
    }
  }

  /**
   * Given the lengths of the CSS and the markup, the documents agree exactly
   * when the buffers do.
   */
  lemma SameDocumentIffSameSources(s: Sources, t: Sources)
    requires |s.css| == |t.css| && |s.html| == |t.html|
    ensures BuildSrcDoc(s.html, s.css, s.js) == BuildSrcDoc(t.html, t.css, t.js) <==> s == t
  {
    if BuildSrcDoc(s.html, s.css, s.js) == BuildSrcDoc(t.html, t.css, t.js) {
      DecomposeBuild(s);
      DecomposeBuild(t);
    }
  }

  /** In any literal of this shape, text moved from the start of the second value to the end of the first leaves the whole unchanged. */
  lemma BoundaryShape(s0: string, s1: string, s2: string, s3: string, x: string)
    ensures Fill([s0, s1, s2, s3], ["", s1 + x, ""]) == Fill([s0, s1, s2, s3], [s1, x, ""])
  {
    Fill3(s0, s1, s2, s3, "", s1 + x, "");
    Fill3(s0, s1, s2, s3, s1, x, "");
    assert s0 + "" + s1 + (s1 + x) == s0 + s1 + s1 + x;
  }

  /**
   * Without the lengths, the buffers cannot be told apart: markup that starts
   * with the template's text from the end of the style element to the body
   * composes, under empty CSS, to the same document as that text given as
   * the CSS and the rest as the markup.
   */
  lemma LengthsNeeded()
    ensures Sources(StyleToBody + "x", "", "") != Sources("x", StyleToBody, "")
    ensures BuildSrcDoc(StyleToBody + "x", "", "") == BuildSrcDoc("x", StyleToBody, "")
  {
    BoundaryShape(Head, StyleToBody, BodyToScript, Tail, "x");
  }
}
