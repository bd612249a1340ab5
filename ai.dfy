/** The client-side expense parser (services/ai.ts): the API-key check, which input is sent
    to the model, the data-URL prefix strip, the markdown-fence cleanup of the reply, and the
    defaults for missing fields.

    The model call, `JSON.parse` (with the property reads on its result) and `new Date()` are
    parameters: `generate` is the model's reply to a payload, `jsonParse` decodes the cleaned
    text, and `nowIso` is the current time as an ISO string. */
module Ai {
  import opened Js

  /** `ParsedExpense` */
  datatype ParsedExpense = ParsedExpense(amount: real, description: string, category: string, date: string)

  /** The four fields read off the decoded JSON object. `amount` is `Number(parsedData.amount)`,
      `None` standing for NaN; a string field is `None` when missing, `null` or not truthy. */
  datatype RawFields = RawFields(
    amount: Option<real>, description: Option<string>, category: Option<string>, date: Option<string>)

  /** What is sent to the model beside the prompt. */
  datatype Payload = Audio(audioBase64: string) | Image(imageBase64: string) | Text(text: string)

  /** The model call either yields the reply text or throws (with or without a message). */
  datatype Reply = Replied(text: string) | Threw(message: Option<string>)

  /** `JSON.parse` followed by the field reads either yields the fields or throws. */
  datatype Decoded = Decoded(fields: RawFields) | Invalid(message: Option<string>)

  /** `{ data, error }` */
  datatype ParseResponse = ParseResponse(data: Option<ParsedExpense>, error: Option<string>)

  const KeyMissing := "Gemini API key not found"
  const NoInput := "No input provided"
  const ParseFailed := "Failed to parse expense with Gemini"
  const DefaultDescription := "Expense"
  const DefaultCategory := "Other"

  // ---------------------------------------------------------------------------------------
  // Input dispatch (services/ai.ts:37-65); an argument left `undefined` is ""

  /** Audio wins over an image, an image over text; nothing truthy means no request. */
  function SelectPayload(text: string, imageBase64: string, audioBase64: string): (r: Option<Payload>)
    ensures r.None? <==> audioBase64 == "" && imageBase64 == "" && text == ""
    ensures audioBase64 != "" ==> r == Some(Audio(audioBase64))
    ensures audioBase64 == "" && imageBase64 != "" ==> r == Some(Image(StripDataUrlPrefix(imageBase64)))
    ensures audioBase64 == "" && imageBase64 == "" && text != "" ==> r == Some(Text(text))
  {
    if audioBase64 != "" then Some(Audio(audioBase64))
    else if imageBase64 != "" then Some(Image(StripDataUrlPrefix(imageBase64)))
    else if text != "" then Some(Text(text))
    else None
  }

  // ---------------------------------------------------------------------------------------
  // `imageBase64.replace(/^data:image\/\w+;base64,/, '')` (services/ai.ts:50)

  const DataUrlHead := "data:image/"
  const Base64Marker := ";base64,"

  /** `\w` */
  predicate IsWordChar(c: char) {
    'a' <= c <= 'z' || 'A' <= c <= 'Z' || '0' <= c <= '9' || c == '_'
  }

  predicate IsMediaSubtype(w: string) {
    w != [] && forall i :: 0 <= i < |w| ==> IsWordChar(w[i])
  }

  /** Length of the run of word characters `\w+` would take at the start of `s`. */
  function WordRun(s: string): (n: nat)
    ensures n <= |s|
    ensures forall i :: 0 <= i < n ==> IsWordChar(s[i])
    ensures n < |s| ==> !IsWordChar(s[n])
  {
    if s != [] && IsWordChar(s[0]) then 1 + WordRun(s[1..]) else 0
  }

  /** Drops a leading `data:image/<subtype>;base64,` and leaves any other string alone. The
      greedy `\w+` cannot backtrack usefully, since `;` is not a word character. */
  function StripDataUrlPrefix(s: string): (r: string)
    ensures r == s || (|r| < |s| && r == s[|s| - |r|..])
  {
    if !StartsWith(s, DataUrlHead) then s
    else
      var rest := s[|DataUrlHead|..];
      var n := WordRun(rest);
      if n > 0 && StartsWith(rest[n..], Base64Marker) then rest[n + |Base64Marker|..] else s
  }

  lemma {:induction false} WordRunOfSubtype(w: string, tail: string)
    requires IsMediaSubtype(w) && tail != [] && !IsWordChar(tail[0])
    ensures WordRun(w + tail) == |w|
  {
    if |w| > 1 {
      assert (w + tail)[1..] == w[1..] + tail;
      WordRunOfSubtype(w[1..], tail);
    } else {
      assert (w + tail)[1..] == tail;
    }
  }

  /** The prefix comes off a data URL, whatever the subtype and payload. */
  lemma StripDataUrlRoundTrip(subtype: string, data: string)
    requires IsMediaSubtype(subtype)
    ensures StripDataUrlPrefix(DataUrlHead + subtype + Base64Marker + data) == data
  {
    var s := DataUrlHead + subtype + Base64Marker + data;
    assert s[..|DataUrlHead|] == DataUrlHead;
    var rest := s[|DataUrlHead|..];
    assert rest == subtype + (Base64Marker + data);
    WordRunOfSubtype(subtype, Base64Marker + data);
    assert rest[|subtype|..] == Base64Marker + data;
    assert rest[|subtype| + |Base64Marker|..] == data;
  }

  lemma PrefixSplit(s: string, prefix: string)
    requires StartsWith(s, prefix)
    ensures s == prefix + s[|prefix|..]
  {
    assert s == s[..|prefix|] + s[|prefix|..];
  }

  /** What the strip looked at when it changed something. */
  lemma StripDataUrlChanged(s: string)
    requires StripDataUrlPrefix(s) != s
    ensures StartsWith(s, DataUrlHead)
    ensures var rest := s[|DataUrlHead|..];
      var n := WordRun(rest);
      n > 0 && StartsWith(rest[n..], Base64Marker)
      && StripDataUrlPrefix(s) == rest[n..][|Base64Marker|..]
  {
  }

  /** ... and only off a data URL: whatever changes was exactly such a prefix. */
  lemma StripDataUrlOnlyPrefix(s: string)
    requires StripDataUrlPrefix(s) != s
    ensures exists subtype ::
      (IsMediaSubtype(subtype) && s == DataUrlHead + subtype + Base64Marker + StripDataUrlPrefix(s))
  {
    StripDataUrlChanged(s);
    var rest := s[|DataUrlHead|..];
    var n := WordRun(rest);
    var tail := rest[n..];
    var r := StripDataUrlPrefix(s);
    PrefixSplit(s, DataUrlHead);
    PrefixSplit(tail, Base64Marker);
    var subtype := rest[..n];
    assert IsMediaSubtype(subtype);
    assert rest == subtype + tail;
    assert s == DataUrlHead + (subtype + (Base64Marker + r));
    ConcatAssoc(DataUrlHead, subtype, Base64Marker, r);
    assert IsMediaSubtype(subtype) && s == DataUrlHead + subtype + Base64Marker + r;
  }

  lemma ConcatAssoc(a: string, b: string, c: string, d: string)
    ensures a + (b + (c + d)) == a + b + c + d
  {
  }

  // ---------------------------------------------------------------------------------------
  // `.replace(/```json/g, '').replace(/```/g, '').trim()` (services/ai.ts:71)

  const JsonFence := "```json"
  const Fence := "```"

  /** `s.replace(/pat/g, '')`: delete the leftmost occurrences, left to right. */
  function RemoveAll(s: string, pat: string): (r: string)
    requires pat != []
    ensures |r| <= |s|
    decreases |s|
  {
    if |s| < |pat| then s
    else if s[..|pat|] == pat then RemoveAll(s[|pat|..], pat)
    else [s[0]] + RemoveAll(s[1..], pat)
  }

  /** `s` contains no occurrence of `pat`. */
  predicate Free(s: string, pat: string)
    requires pat != []
    decreases |s|
  {
    |s| < |pat| || (s[..|pat|] != pat && Free(s[1..], pat))
  }

  function CleanFences(s: string): (r: string)
    ensures r == [] || (!IsWhitespace(r[0]) && !IsWhitespace(r[|r| - 1]))
  {
    Trim(RemoveAll(RemoveAll(s, JsonFence), Fence))
  }

  lemma {:induction false} RemoveAllOfFree(s: string, pat: string)
    requires pat != [] && Free(s, pat)
    ensures RemoveAll(s, pat) == s
  {
    if |s| >= |pat| {
      RemoveAllOfFree(s[1..], pat);
    }
  }

  /** A text without a plain fence has no json fence either. */
  lemma {:induction false} RemoveJsonFenceOfFree(s: string)
    requires Free(s, Fence)
    ensures RemoveAll(s, JsonFence) == s
  {
    if |s| >= |JsonFence| {
      assert s[..|JsonFence|][..|Fence|] == s[..|Fence|];
      RemoveJsonFenceOfFree(s[1..]);
    }
  }

  lemma {:induction false} FreePrefix(s: string, pat: string, k: nat)
    requires pat != [] && Free(s, pat) && k <= |s|
    ensures Free(s[..k], pat)
  {
    if k >= |pat| {
      assert s[..k][..|pat|] == s[..|pat|];
      assert s[..k][1..] == s[1..][..k - 1];
      FreePrefix(s[1..], pat, k - 1);
    }
  }

  lemma {:induction false} FreeSuffix(s: string, pat: string, k: nat)
    requires pat != [] && Free(s, pat) && k <= |s|
    ensures Free(s[k..], pat)
  {
    if k > 0 && |s| >= |pat| {
      assert s[k..] == s[1..][k - 1..];
      FreeSuffix(s[1..], pat, k - 1);
    }
  }

  lemma RemoveFenceKeepsHead(s: string)
    requires s != [] && s[0] != '`'
    ensures RemoveAll(s, Fence) != [] && RemoveAll(s, Fence)[0] == s[0]
  {
  }

  lemma RemoveFenceKeepsTwo(s: string)
    requires |s| >= 2 && s[0] == '`' && s[1] != '`'
    ensures |RemoveAll(s, Fence)| >= 2
    ensures RemoveAll(s, Fence)[0] == '`' && RemoveAll(s, Fence)[1] == s[1]
  {
    if |s| >= 3 {
      RemoveFenceKeepsHead(s[1..]);
    }
  }

  /** Deleting every fence cannot leave a new fence behind. */
  lemma {:induction false} RemoveFenceIsFree(s: string)
    ensures Free(RemoveAll(s, Fence), Fence)
    decreases |s|
  {
    if |s| < 3 {
    } else if s[..3] == Fence {
      RemoveFenceIsFree(s[3..]);
    } else {
      var t := RemoveAll(s[1..], Fence);
      RemoveFenceIsFree(s[1..]);
      var r := [s[0]] + t;
      assert RemoveAll(s, Fence) == r;
      assert r[1..] == t;
      if |r| >= 3 {
        if s[0] != '`' {
          assert r[..3][0] == s[0];
        } else if s[1] != '`' {
          RemoveFenceKeepsHead(s[1..]);
          assert r[..3][1] == s[1];
        } else {
          assert s[..3] == [s[0], s[1], s[2]];
          RemoveFenceKeepsTwo(s[1..]);
          assert r[..3][2] == s[2];
        }
        assert r[..3] != Fence;
      }
    }
  }

  lemma {:induction false} TrimKeepsFree(s: string)
    requires Free(s, Fence)
    ensures Free(Trim(s), Fence)
  {
    var a := TrimStart(s);
    FreeSuffix(s, Fence, |s| - |a|);
    FreePrefix(a, Fence, |TrimEnd(a)|);
  }

  /** The cleaned reply has no fence left in it. */
  lemma CleanFencesIsFree(s: string)
    ensures Free(CleanFences(s), Fence)
  {
    var u := RemoveAll(RemoveAll(s, JsonFence), Fence);
    RemoveFenceIsFree(RemoveAll(s, JsonFence));
    TrimKeepsFree(u);
  }

  /** Cleaning twice is cleaning once. */
  lemma CleanFencesIdempotent(s: string)
    ensures CleanFences(CleanFences(s)) == CleanFences(s)
  {
    var t := CleanFences(s);
    CleanFencesIsFree(s);
    RemoveJsonFenceOfFree(t);
    RemoveAllOfFree(t, Fence);
    TrimKeepsTrimmed(t);
  }

  lemma {:induction false} RemoveAllSkipsPlain(a: string, b: string, pat: string)
    requires pat != [] && pat[0] == '`'
    requires forall i :: 0 <= i < |a| ==> a[i] != '`'
    ensures RemoveAll(a + b, pat) == a + RemoveAll(b, pat)
  {
    var s := a + b;
    if a == [] {
      assert s == b;
    } else {
      assert s[1..] == a[1..] + b;
      RemoveAllSkipsPlain(a[1..], b, pat);
      if |s| < |pat| {
        assert RemoveAll(a[1..] + b, pat) == a[1..] + b;
        assert a + RemoveAll(b, pat) == [a[0]] + RemoveAll(a[1..] + b, pat);
      } else {
        assert s[..|pat|] != pat by {
          assert s[..|pat|][0] == a[0];
        }
        assert RemoveAll(s, pat) == [s[0]] + RemoveAll(s[1..], pat);
        assert [a[0]] + (a[1..] + RemoveAll(b, pat)) == a + RemoveAll(b, pat);
      }
    }
  }

  /** A reply wrapped in a json code block is unwrapped to its trimmed body. */
  lemma CleanFencesUnwraps(body: string)
    requires forall i :: 0 <= i < |body| ==> body[i] != '`'
    ensures CleanFences(JsonFence + body + Fence) == Trim(body)
  {
    var s := JsonFence + body + Fence;
    assert s[..|JsonFence|] == JsonFence;
    assert s[|JsonFence|..] == body + Fence;
    RemoveAllSkipsPlain(body, Fence, JsonFence);
    RemoveAllSkipsPlain(body, Fence, Fence);
    assert RemoveAll(Fence, Fence) == [];
    assert body + [] == body;
  }

  // ---------------------------------------------------------------------------------------
  // Defaults (services/ai.ts:77-80) and the error text (services/ai.ts:87)

  /** `Number(amount) || 0`, `description || 'Expense'`, `category || 'Other'`, `date || now` */
  function WithDefaults(f: RawFields, nowIso: string): (p: ParsedExpense)
    ensures p.amount == 0.0 <==> f.amount.None? || f.amount.value == 0.0
    ensures p.amount != 0.0 ==> f.amount == Some(p.amount)
    ensures p.description != "" && p.category != ""
    ensures nowIso != "" ==> p.date != ""
    ensures Truthy(f.description) ==> p.description == f.description.value
    ensures !Truthy(f.description) ==> p.description == DefaultDescription
    ensures Truthy(f.category) ==> p.category == f.category.value
    ensures !Truthy(f.category) ==> p.category == DefaultCategory
    ensures Truthy(f.date) ==> p.date == f.date.value
    ensures !Truthy(f.date) ==> p.date == nowIso
  {
    ParsedExpense(
      if f.amount.Some? && f.amount.value != 0.0 then f.amount.value else 0.0,
      OrElse(f.description, DefaultDescription),
      OrElse(f.category, DefaultCategory),
      OrElse(f.date, nowIso))
  }

  /** The fields a parsed expense would decode back to. */
  function AsFields(p: ParsedExpense): RawFields {
    RawFields(Some(p.amount), Some(p.description), Some(p.category), Some(p.date))
  }

  /** Defaulting is a closure: a defaulted record, read back, is left as it is. */
  lemma WithDefaultsFixed(f: RawFields, nowIso: string, later: string)
    requires nowIso != ""
    ensures WithDefaults(AsFields(WithDefaults(f, nowIso)), later) == WithDefaults(f, nowIso)
  {
  }

  /** `error.message || 'Failed to parse expense with Gemini'` */
  function ErrorText(message: Option<string>): (e: string)
    ensures e != ""
    ensures Truthy(message) ==> e == message.value
    ensures !Truthy(message) ==> e == ParseFailed
  {
    OrElse(message, ParseFailed)
  }

  // ---------------------------------------------------------------------------------------
  // parseExpense

  method ParseExpense(apiKey: string, text: string, imageBase64: string, audioBase64: string,
                      generate: Payload -> Reply, jsonParse: string -> Decoded, nowIso: string)
    returns (r: ParseResponse)
    ensures r.data.Some? != r.error.Some?
    ensures r.error.Some? ==> r.error.value != ""
    ensures apiKey == "" ==> r == ParseResponse(None, Some(KeyMissing))
    ensures apiKey != "" && SelectPayload(text, imageBase64, audioBase64).None? ==>
      r == ParseResponse(None, Some(NoInput))
    ensures apiKey != "" && SelectPayload(text, imageBase64, audioBase64).Some? ==>
      var reply := generate(SelectPayload(text, imageBase64, audioBase64).value);
      match reply
      case Threw(m) => r == ParseResponse(None, Some(ErrorText(m)))
      case Replied(t) =>
        match jsonParse(CleanFences(t))
        case Invalid(m) => r == ParseResponse(None, Some(ErrorText(m)))
        case Decoded(f) => r == ParseResponse(Some(WithDefaults(f, nowIso)), None)
  {
    if apiKey == "" {
      return ParseResponse(None, Some(KeyMissing));
    }
    var result: Reply;
    if audioBase64 != "" {
      result := generate(Audio(audioBase64));
    } else if imageBase64 != "" {
      var base64Data := StripDataUrlPrefix(imageBase64);
      result := generate(Image(base64Data));
    } else if text != "" {
      result := generate(Text(text));
    } else {
      return ParseResponse(None, Some(NoInput));
    }
    if result.Threw? {
      return ParseResponse(None, Some(ErrorText(result.message)));
    }
    var textResponse := result.text;
    textResponse := CleanFences(textResponse);
    var parsed := jsonParse(textResponse);
    if parsed.Invalid? {
      return ParseResponse(None, Some(ErrorText(parsed.message)));
    }
    r := ParseResponse(Some(WithDefaults(parsed.fields, nowIso)), None);
  }
}
