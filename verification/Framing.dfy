/** The text frames around the three JSON ledgers. */
module Framing {
  import opened Prelude

  predicate IsAt(body: string, token: string, i: int) {
    0 <= i && i + |token| <= |body| && body[i..i + |token|] == token
  }

  /** `body.find(token)`, from an index on */
  function FindFrom(body: string, token: string, from: nat): (found: Option<nat>)
    ensures found.None? ==> forall i :: from <= i ==> !IsAt(body, token, i)
    ensures found.Some? ==> from <= found.value && IsAt(body, token, found.value)
    ensures found.Some? ==> forall i :: from <= i < found.value ==> !IsAt(body, token, i)
    decreases |body| - from
  {
    if from + |token| > |body| then None
    else if body[from..from + |token|] == token then Some(from)
    else FindFrom(body, token, from + 1)
  }

  function Find(body: string, token: string): Option<nat> {
    FindFrom(body, token, 0)
  }

  /** `body.rfind(token)`, up to an index */
  function FindBack(body: string, token: string, upTo: int): (found: Option<nat>)
    ensures found.None? ==> forall i :: i <= upTo ==> !IsAt(body, token, i)
    ensures found.Some? ==> found.value <= upTo && IsAt(body, token, found.value)
    ensures found.Some? ==> forall i :: found.value < i <= upTo ==> !IsAt(body, token, i)
    decreases upTo
  {
    if upTo < 0 then None
    else if IsAt(body, token, upTo) then Some(upTo)
    else FindBack(body, token, upTo - 1)
  }

  function RFind(body: string, token: string): Option<nat> {
    FindBack(body, token, |body|)
  }

  /** What `str.strip()` removes: the ASCII controls and separators, and the Unicode spaces. */
  predicate IsSpace(c: char) {
    || '\t' <= c <= '\r' || '\U{1C}' <= c <= ' ' || c == '\U{85}' || c == '\U{A0}' || c == '\U{1680}'
    || '\U{2000}' <= c <= '\U{200A}' || c == '\U{2028}' || c == '\U{2029}' || c == '\U{202F}' || c == '\U{205F}'
    || c == '\U{3000}'
  }

  function LStrip(s: string): string {
    if s != "" && IsSpace(s[0]) then LStrip(s[1..]) else s
  }

  function RStrip(s: string): string {
    if s != "" && IsSpace(s[|s| - 1]) then RStrip(s[..|s| - 1]) else s
  }

  function Strip(s: string): string {
    RStrip(LStrip(s))
  }

  // ---------- the three codecs ----------

  const STATE_MARKER := "<!-- samuel-controller-state -->"
  const ADMISSION_MARKER := "<!-- samuel-work-admission -->"
  const FOREIGN_MARKER := "<!-- samuel-codeqa-foreign-work-ledger-v1 -->"

  function Framed(marker: string, fence: string, payload: string): string {
    marker + "\n" + fence + "json\n" + payload + "\n" + fence
  }

  function EncodeState(payload: string): string {
    Framed(STATE_MARKER, "```", payload)
  }

  function DecodeState(body: string): Result<string> {
    if Find(body, STATE_MARKER).None? then Err("controller state marker missing")
    else
      var start, end := Find(body, "```json"), RFind(body, "```");
      if start.None? || end.None? || end.value <= start.value + 7 then Err("controller state JSON fence missing")
      else Ok(Strip(body[start.value + 7..end.value]))
  }

  function EncodeAdmission(payload: string): string {
    Framed(ADMISSION_MARKER, "~~~", payload)
  }

  function DecodeAdmission(body: string): Result<string> {
    if Find(body, ADMISSION_MARKER).None? then Err("admission marker missing")
    else
      var start, end := Find(body, "~~~json"), RFind(body, "~~~");
      if start.None? || end.None? then Err("admission ledger JSON fence missing")
      else if start.value + 7 <= end.value then Ok(Strip(body[start.value + 7..end.value]))
      else Ok("")
  }

  function EncodeForeign(payload: string): string {
    Framed(FOREIGN_MARKER, "~~~", payload)
  }

  /** `body.split(token, 1)[1]` */
  function AfterFirst(body: string, token: string): Option<string> {
    var i := Find(body, token);
    if i.None? then None else Some(body[i.value + |token|..])
  }

  /** `body.rsplit(token, 1)[0]` */
  function BeforeLast(body: string, token: string): string {
    var i := RFind(body, token);
    if i.None? then body else body[..i.value]
  }

  function DecodeForeign(body: string): Result<string> {
    if !(FOREIGN_MARKER + "\n~~~json\n" <= body && IsAt(body, "\n~~~", |body| - 4)) then
      Err("foreign state marker or fence invalid")
    else
      match AfterFirst(body, "~~~json\n")
      case None => Err("foreign state fence invalid")
      case Some(rest) => Ok(BeforeLast(rest, "\n~~~"))
  }

  // ---------- where the fences are found ----------

  /** A token that starts with a character the prefix does not contain is not found inside the prefix. */
  lemma FirstAfterPrefix(prefix: string, token: string, rest: string)
    requires token != "" && token[0] !in prefix
    ensures Find(prefix + token + rest, token) == Some(|prefix|)
  {
    var body := prefix + token + rest;
    assert body[|prefix|..|prefix| + |token|] == token;
    assert IsAt(body, token, |prefix|);
    forall i | 0 <= i < |prefix| ensures !IsAt(body, token, i) {
      TokenStarts(body, token, i);
      assert body[i] == prefix[i] && prefix[i] in prefix;
    }
  }

  lemma TokenStarts(body: string, token: string, i: nat)
    requires i < |body| && token != ""
    ensures IsAt(body, token, i) ==> body[i] == token[0]
  {
  }

  lemma ForeignMarkerHasNoFence()
    ensures '~' !in FOREIGN_MARKER
  {
    var head, tail := "<!-- samuel-codeqa-foreign", "-work-ledger-v1 -->";
    assert FOREIGN_MARKER == head + tail;
    assert '~' !in head && '~' !in tail;
  }

  lemma MarkerFound(marker: string, rest: string)
    ensures Find(marker + rest, marker) == Some(0)
  {
    assert (marker + rest)[0..|marker|] == marker;
  }

  lemma LastIsSuffix(body: string, token: string)
    requires token != "" && IsAt(body, token, |body| - |token|)
    ensures RFind(body, token) == Some(|body| - |token|)
  {
    var found := RFind(body, token);
    assert IsAt(body, token, found.value);
  }

  /** Between the first opening fence and the last closing one lies the payload between two line breaks,
      whatever fences the payload itself contains. */
  lemma PayloadBetweenFences(marker: string, fence: string, payload: string)
    requires |fence| == 3 && fence[0] !in marker && fence[0] != '\n'
    ensures var body := Framed(marker, fence, payload); var start := |marker| + 1;
      && Find(body, marker).Some?
      && Find(body, fence + "json") == Some(start) && RFind(body, fence) == Some(|body| - 3)
      && start + 7 < |body| - 3 && body[start + 7..|body| - 3] == "\n" + payload + "\n"
  {
    var body := Framed(marker, fence, payload);
    var rest := "\n" + payload + "\n" + fence;
    assert body == (marker + "\n") + (fence + "json") + rest;
    FirstAfterPrefix(marker + "\n", fence + "json", rest);
    assert body == marker + ("\n" + fence + "json\n" + payload + "\n" + fence);
    MarkerFound(marker, "\n" + fence + "json\n" + payload + "\n" + fence);
    assert body[|body| - 3..] == fence;
    LastIsSuffix(body, fence);
  }

  lemma {:induction false} StripsLineBreaks(payload: string)
    ensures Strip("\n" + payload + "\n") == Strip(payload)
  {
    assert ("\n" + payload + "\n")[1..] == payload + "\n";
    assert Strip("\n" + payload + "\n") == Strip(payload + "\n");
    StripsTrailing(payload);
  }

  lemma {:induction false} StripsTrailing(s: string)
    ensures Strip(s + "\n") == Strip(s)
  {
    if s == "" {
      assert LStrip("\n") == LStrip("\n"[1..]);
    } else if IsSpace(s[0]) {
      assert (s + "\n")[1..] == s[1..] + "\n" && (s + "\n")[0] == s[0];
      StripsTrailing(s[1..]);
    } else {
      assert (s + "\n")[0] == s[0];
      assert (s + "\n")[..|s|] == s;
    }
  }

  // ---------- round trips ----------

  /** For every payload text the controller state codec returns the payload without surrounding
      whitespace, so it is exact precisely on texts without any. */
  lemma StateRoundTrip(payload: string)
    ensures DecodeState(EncodeState(payload)) == Ok(Strip(payload))
    ensures DecodeState(EncodeState(payload)) == Ok(payload) <==> Strip(payload) == payload
  {
    hide Strip;
    PayloadBetweenFences(STATE_MARKER, "```", payload);
    StripsLineBreaks(payload);
    assert "```" + "json" == "```json";
  }

  lemma AdmissionRoundTrip(payload: string)
    ensures DecodeAdmission(EncodeAdmission(payload)) == Ok(Strip(payload))
    ensures DecodeAdmission(EncodeAdmission(payload)) == Ok(payload) <==> Strip(payload) == payload
  {
    hide Strip;
    PayloadBetweenFences(ADMISSION_MARKER, "~~~", payload);
    StripsLineBreaks(payload);
    assert "~~~" + "json" == "~~~json";
  }

  /** The foreign ledger codec returns every payload text exactly. */
  lemma ForeignRoundTrip(payload: string)
    ensures DecodeForeign(EncodeForeign(payload)) == Ok(payload)
  {
    var body := EncodeForeign(payload);
    var rest := payload + "\n~~~";
    assert body == (FOREIGN_MARKER + "\n") + "~~~json\n" + rest;
    ForeignMarkerHasNoFence();
    FirstAfterPrefix(FOREIGN_MARKER + "\n", "~~~json\n", rest);
    assert body[|FOREIGN_MARKER| + 1 + 8..] == rest;
    assert rest[|rest| - 4..] == "\n~~~" && body[|body| - 4..] == "\n~~~";
    LastIsSuffix(rest, "\n~~~");
    assert rest[..|rest| - 4] == payload;
  }

  /** A JSON object text, even one that contains the fence tokens, survives all three codecs unchanged. */
  lemma ObjectsSurviveFraming(payload: string)
    requires payload != "" && payload[0] == '{' && payload[|payload| - 1] == '}'
    ensures DecodeState(EncodeState(payload)) == Ok(payload)
    ensures DecodeAdmission(EncodeAdmission(payload)) == Ok(payload)
    ensures DecodeForeign(EncodeForeign(payload)) == Ok(payload)
  {
    BracedIsStripped(payload);
    hide Strip, EncodeState, DecodeState, EncodeAdmission, DecodeAdmission, EncodeForeign, DecodeForeign;
    StateRoundTrip(payload);
    AdmissionRoundTrip(payload);
    ForeignRoundTrip(payload);
  }

  lemma BracedIsStripped(payload: string)
    requires payload != "" && payload[0] == '{' && payload[|payload| - 1] == '}'
    ensures Strip(payload) == payload
  {
  }
}
