/** The response rewriter. It stands in for the application's response object: it captures the
    status and content type, buffers every chunk the application writes, and when the application
    ends the response it joins the chunks in order, injects the wwwhisper script into an HTML
    document, and flushes the whole response once. */
module Rewriter {
  import opened Wrappers
  import opened Text
  import opened Http

  /** Injection point: the script goes in front of the first closing body tag. */
  const Anchor := "</body>"
  /** The injected client-side hook, a script served from the auth backend's namespace. */
  const Snippet := ScriptOpen + ScriptType + ScriptSource + ScriptRest
  const ScriptOpen := "<script"
  const ScriptType := " type=\"text/javascript\" "
  const ScriptSource := "src=\"/wwwhisper"
  const ScriptRest := "/auth/iframe.js\"></script>"

  const HtmlType := "text/html"

  /** The content type announces an HTML document: it is `text/html`, possibly followed by
      parameters such as a charset. The comparison is case-sensitive. */
  function IsHtml(contentType: Option<string>): (html: bool)
    ensures html <==> contentType.Some? && |HtmlType| <= |contentType.value|
                      && contentType.value == HtmlType + contentType.value[|HtmlType|..]
  {
    assert contentType.Some? && |HtmlType| <= |contentType.value| ==>
      contentType.value == contentType.value[..|HtmlType|] + contentType.value[|HtmlType|..];
    contentType.Some? && StartsWith(contentType.value, HtmlType)
  }

  /** The content types of the tests: `text/html` is HTML, `text/plain` and a missing type are
      not. */
  lemma TestContentTypes()
    ensures IsHtml(Some("text/html")) && !IsHtml(Some("text/plain")) && !IsHtml(None)
  {
    assert "text/plain"[5] != HtmlType[5];
  }

  predicate IsLineTerminator(c: char) {
    c == '\n' || c == '\r' || c == '\U{2028}' || c == '\U{2029}'
  }

  /** `s` holds a script element whose `src` points into the wwwhisper namespace: a match of
      the regular expression <script.*src="\/wwwhisper (where `.` matches no line terminator). */
  ghost predicate ScriptReference(s: string) {
    exists i: nat, j: nat ::
      OccursAt(s, ScriptOpen, i) && i + |ScriptOpen| <= j && OccursAt(s, ScriptSource, j) &&
      forall k :: i + |ScriptOpen| <= k < j ==> !IsLineTerminator(s[k])
  }

  /** The first occurrence of `pat` in `s` at or after `from`. */
  function FindFrom(s: string, pat: string, from: nat): (at: Option<nat>)
    requires from <= |s|
    ensures at.Some? ==> from <= at.value && OccursAt(s, pat, at.value)
    ensures at.Some? ==> forall k: nat :: from <= k < at.value ==> !OccursAt(s, pat, k)
    ensures at.None? ==> forall k: nat :: from <= k ==> !OccursAt(s, pat, k)
    decreases |s| - from
  {
    if from + |pat| > |s| then None
    else if s[from..from + |pat|] == pat then Some(from)
    else FindFrom(s, pat, from + 1)
  }

  /** `i` is where the first closing body tag of `body` starts. */
  ghost predicate FirstAnchorAt(body: string, i: nat) {
    OccursAt(body, Anchor, i) && forall k: nat :: k < i ==> !OccursAt(body, Anchor, k)
  }

  /** The HTML document with the script injected: in front of the first closing body tag, and
      not at all when the document has none. */
  function Inject(body: string): (r: string)
    ensures (forall k: nat :: !OccursAt(body, Anchor, k)) ==> r == body
    ensures forall i: nat :: FirstAnchorAt(body, i) ==> r == body[..i] + Snippet + body[i..]
  {
    InsertBeforeFirst(body, Anchor, Snippet)
  }

  /** `body` with `ins` inserted in front of the first occurrence of `pat`, if there is one. */
  function InsertBeforeFirst(body: string, pat: string, ins: string): (r: string)
    ensures (forall k: nat :: !OccursAt(body, pat, k)) ==> r == body
    ensures forall i: nat :: OccursAt(body, pat, i) && (forall k: nat :: k < i ==> !OccursAt(body, pat, k)) ==>
              r == body[..i] + ins + body[i..]
  {
    match FindFrom(body, pat, 0)
    case None => body
    case Some(i) => body[..i] + ins + body[i..]
  }

  /** The body the client receives for a response of this content type. */
  function Rewrite(contentType: Option<string>, body: string): (r: string)
    ensures !IsHtml(contentType) ==> r == body
    ensures IsHtml(contentType) ==> r == Inject(body)
    ensures r == body || exists i :: 0 <= i <= |body| && r == body[..i] + Snippet + body[i..]
  {
    if IsHtml(contentType) then Inject(body) else body
  }

  /** The response the client receives for what the application wrote: its status and content
      type, no `user` header, and its chunks joined in order, with the script injected when the
      response is HTML. */
  function Rewritten(out: AppResponse): (r: Response)
    ensures r.status == out.status && r.contentType == out.contentType && r.user == None
    ensures !IsHtml(out.contentType) ==> r == AsSent(out)
    ensures IsHtml(out.contentType) ==> r.body == Inject(Concat(out.chunks))
  {
    Response(out.status, out.contentType, None, Rewrite(out.contentType, Concat(out.chunks)))
  }

  /** A document without any '<' has no closing body tag, so nothing is injected into it. */
  lemma NoTagNoInjection(body: string)
    requires '<' !in body
    ensures Inject(body) == body
  {
    assert forall k: nat :: OccursAt(body, Anchor, k) ==> body[k] == '<' && body[k] in body;
  }

  /** The `type` attribute of the snippet contains no line terminator. */
  lemma ScriptTypeOnOneLine()
    ensures forall c :: c in ScriptType ==> !IsLineTerminator(c)
  {
  }

  /** Where the parts of the snippet sit: the opening `<script` at 0, the wwwhisper `src` at 31,
      and no line terminator in between. */
  lemma SnippetParts()
    ensures Snippet[..7] == ScriptOpen
    ensures Snippet[31..46] == ScriptSource
    ensures forall m :: 7 <= m < 31 ==> !IsLineTerminator(Snippet[m])
  {
    ScriptTypeOnOneLine();
    assert |ScriptOpen| == 7 && |ScriptType| == 24 && |ScriptSource| == 15;
    forall m | 7 <= m < 31 ensures !IsLineTerminator(Snippet[m]) {
      assert Snippet[m] == ScriptType[m - 7];
      assert ScriptType[m - 7] in ScriptType;
    }
  }

  /** Whatever surrounds it, the snippet is a script reference into the wwwhisper namespace. */
  lemma SnippetIsScriptReference(pre: string, post: string)
    ensures ScriptReference(pre + Snippet + post)
  {
    var r := pre + Snippet + post;
    var i := |pre|;
    SnippetParts();
    assert r[i..i + |Snippet|] == Snippet;
    assert r[i..i + 7] == Snippet[..7];
    assert r[i + 31..i + 46] == Snippet[31..46];
    forall m | i + 7 <= m < i + 31 ensures !IsLineTerminator(r[m]) {
      assert r[m] == Snippet[m - i];
    }
    assert OccursAt(r, ScriptOpen, i) && OccursAt(r, ScriptSource, i + 31);
  }

  /** An HTML document with a closing body tag gains a script reference into the wwwhisper
      namespace. */
  lemma InjectionReferencesScript(body: string, k: nat)
    requires OccursAt(body, Anchor, k)
    ensures ScriptReference(Inject(body))
  {
    var i := FindFrom(body, Anchor, 0).value;
    assert FirstAnchorAt(body, i);
    SnippetIsScriptReference(body[..i], body[i..]);
  }

  /** Inserting `mid` at `i` keeps every occurrence that does not straddle `i`. */
  lemma InsertionKeepsText(body: string, i: nat, mid: string, w: string, k: nat)
    requires i <= |body| && OccursAt(body, w, k)
    ensures k + |w| <= i ==> OccursAt(body[..i] + mid + body[i..], w, k)
    ensures k >= i ==> OccursAt(body[..i] + mid + body[i..], w, k + |mid|)
  {
    var r := body[..i] + mid + body[i..];
    if k + |w| <= i {
      assert r[k..k + |w|] == body[..i][k..k + |w|] == body[k..k + |w|];
    } else if k >= i {
      var n := k + |mid|;
      assert r[n..n + |w|] == body[i..][k - i..k - i + |w|] == body[k..k + |w|];
    }
  }

  /** Text without '<' cannot straddle the start of a closing body tag. */
  lemma TagStartNotInside(body: string, w: string, k: nat, i: nat)
    requires OccursAt(body, w, k) && '<' !in w && OccursAt(body, Anchor, i)
    ensures k + |w| <= i || k >= i
  {
    assert forall j :: k <= j < k + |w| ==> body[j] == w[j - k] && w[j - k] in w;
    assert body[i] == Anchor[0] == '<';
  }

  /** Text of the document that holds no '<' is still in the rewritten document: at its old
      position when the document has no closing body tag or the text lies before the first one,
      shifted by the length of the script when it lies after. */
  lemma InjectionKeepsText(body: string, w: string, k: nat)
    requires OccursAt(body, w, k) && '<' !in w
    ensures (forall j: nat :: !OccursAt(body, Anchor, j)) ==> OccursAt(Inject(body), w, k)
    ensures forall i: nat :: FirstAnchorAt(body, i) && k + |w| <= i ==> OccursAt(Inject(body), w, k)
    ensures forall i: nat :: FirstAnchorAt(body, i) && k >= i ==> OccursAt(Inject(body), w, k + |Snippet|)
    ensures OccursAt(Inject(body), w, k) || OccursAt(Inject(body), w, k + |Snippet|)
  {
    forall i: nat | FirstAnchorAt(body, i)
      ensures k + |w| <= i ==> OccursAt(Inject(body), w, k)
      ensures k >= i ==> OccursAt(Inject(body), w, k + |Snippet|)
    {
      InsertionKeepsText(body, i, Snippet, w, k);
    }
    var found := FindFrom(body, Anchor, 0);
    if found.Some? {
      var i := found.value;
      assert FirstAnchorAt(body, i);
      TagStartNotInside(body, w, k, i);
    }
  }

  lemma HtmlDocLayout(body: string)
    requires body == "<html><body><b>Hello World</body></html>"
    ensures OccursAt(body, "Hello World", 15) && OccursAt(body, Anchor, 26)
  {
    assert body == "<html><body><b>" + "Hello World" + "</body></html>";
    assert body[15..26] == "Hello World";
    assert body[26..33] == Anchor;
  }

  /** Text without '<' that the document mentions is still mentioned once the script is in. */
  lemma InjectionKeepsMention(body: string, w: string, k: nat)
    requires OccursAt(body, w, k) && '<' !in w
    ensures Mentions(Inject(body), w)
  {
    InjectionKeepsText(body, w, k);
  }

  /** The text the tests look for in the page contains no tag. */
  lemma HelloWorldHasNoTag()
    ensures '<' !in "Hello World"
  {
  }

  /** The `html_doc` page of the tests: the rewritten page still says Hello World and now
      references the wwwhisper script. */
  lemma HtmlDocRewritten(body: string)
    requires body == "<html><body><b>Hello World</body></html>"
    ensures Mentions(Rewrite(Some("text/html"), body), "Hello World")
    ensures ScriptReference(Rewrite(Some("text/html"), body))
  {
    TestContentTypes();
    HtmlDocLayout(body);
    InjectionReferencesScript(body, 26);
    HelloWorldHasNoTag();
    InjectionKeepsMention(body, "Hello World", 15);
  }

  /** The tests' three chunks written as text/html: joined in order and, with no closing body
      tag, delivered exactly as written. */
  lemma CombinedChunksUnchanged(out: AppResponse)
    requires out == AppResponse(200, Some("text/html"), ["abc", "def", "ghi"])
    ensures Rewritten(out).body == "abcdefghi"
  {
    assert Concat(out.chunks) == "abcdefghi" by {
      assert out.chunks[1..] == ["def", "ghi"] && out.chunks[1..][1..] == ["ghi"];
    }
    NoTagNoInjection("abcdefghi");
  }

  /** A text/plain response is delivered byte for byte, even when it looks like HTML. */
  lemma PlainTextUnchanged(out: AppResponse)
    requires out.contentType == Some("text/plain")
    ensures Rewritten(out) == AsSent(out)
  {
    TestContentTypes();
  }

  /** Where the rewriter is in the life of one response. */
  datatype Phase = Idle | Buffering | Flushed

  /** Wraps one in-flight response. The application calls WriteHead, Write and End as it would
      on the real response; nothing reaches the client before End. */
  class ResponseRewriter {
    var phase: Phase
    var status: int
    var contentType: Option<string>
    var chunks: seq<string>

    /** Before the head is written the response has the default head and no chunks. */
    ghost predicate Valid()
      reads this
    {
      phase == Idle ==> status == 200 && contentType == None && chunks == []
    }

    /** The response as captured so far. */
    function Captured(): AppResponse
      reads this
    {
      AppResponse(status, contentType, chunks)
    }

    constructor ()
      ensures Valid() && phase == Idle
    {
      phase := Idle;
      status := 200;
      contentType := None;
      chunks := [];
    }

    /** Captures the head; it is not sent yet. A head after the first write or after the end is
        refused and changes nothing. */
    method WriteHead(code: int, ct: Option<string>) returns (ok: bool)
      requires Valid()
      modifies this
      ensures Valid()
      ensures ok <==> old(phase) == Idle
      ensures ok ==> phase == Buffering && Captured() == AppResponse(code, ct, [])
      ensures !ok ==> phase == old(phase) && Captured() == old(Captured())
    {
      ok := phase == Idle;
      if ok {
        phase := Buffering;
        status := code;
        contentType := ct;
      }
    }

    /** Buffers one chunk; a write before any head keeps the default head. A write after the
        end is refused and changes nothing. */
    method Write(data: string) returns (ok: bool)
      requires Valid()
      modifies this
      ensures Valid()
      ensures ok <==> old(phase) != Flushed
      ensures ok ==> phase == Buffering && Captured() == old(Captured()).(chunks := old(chunks) + [data])
      ensures !ok ==> phase == old(phase) && Captured() == old(Captured())
    {
      ok := phase != Flushed;
      if ok {
        phase := Buffering;
        chunks := chunks + [data];
      }
    }

    /** Buffers the last chunk, if any, and flushes the rewritten response: exactly once, a
        second end flushes nothing. */
    method End(last: Option<string>) returns (flushed: Option<Response>)
      requires Valid()
      modifies this
      ensures Valid()
      ensures old(phase) == Flushed ==> flushed == None && phase == Flushed && Captured() == old(Captured())
      ensures old(phase) != Flushed ==>
        && phase == Flushed
        && Captured() == old(Captured()).(chunks := old(chunks) + (if last.Some? then [last.value] else []))
        && flushed == Some(Rewritten(Captured()))
    {
      if phase == Flushed {
        flushed := None;
      } else {
        if last.Some? {
          chunks := chunks + [last.value];
        }
        phase := Flushed;
        var body := Rewrite(contentType, Concat(chunks));
        flushed := Some(Response(status, contentType, None, body));
      }
    }
  }

  /** Plays the application's response into a fresh rewriter, head, chunks in order, end, and
      returns what is flushed to the client. */
  method Pipe(out: AppResponse) returns (r: Response)
    ensures r == Rewritten(out)
  {
    var rw := new ResponseRewriter();
    var ok := rw.WriteHead(out.status, out.contentType);
    var i := 0;
    while i < |out.chunks|
      invariant 0 <= i <= |out.chunks|
      invariant rw.Valid() && rw.phase == Buffering
      invariant rw.Captured() == out.(chunks := out.chunks[..i])
    {
      ok := rw.Write(out.chunks[i]);
      assert out.chunks[..i + 1] == out.chunks[..i] + [out.chunks[i]];
      i := i + 1;
    }
    assert out.chunks[..i] == out.chunks;
    var flushed := rw.End(None);
    assert out.chunks + [] == out.chunks;
    r := flushed.value;
  }
}
