/** ConfigController: GET /js/config.js serves a script that sets three
    JavaScript variables from the application's configuration. */
module ConfigController {

  /** The three injected configuration values. */
  datatype Settings = Settings(apiEndpoint: string, apiEnv: string, apiKey: string)

  /** The served script and its Cache-Control header. The 200 status and
      the application/javascript content type are not modelled. */
  datatype Script = Script(cacheControl: string, body: string)

  /** What String.trim removes: every character at or below U+0020. */
  predicate IsBlank(c: char)
  {
    c <= ' '
  }

  /** How many blanks open s. */
  function LeadingBlanks(s: string): (n: nat)
    ensures n <= |s|
    ensures forall i | 0 <= i < n :: IsBlank(s[i])
    ensures n < |s| ==> !IsBlank(s[n])
  {
    if s == [] || !IsBlank(s[0]) then 0
    else
      var n := 1 + LeadingBlanks(s[1..]);
      assert forall i | 1 <= i < n :: s[i] == s[1..][i - 1];
      n
  }

  /** The length of s once the blanks that close it are dropped. */
  function WithoutTrailingBlanks(s: string): (n: nat)
    ensures n <= |s|
    ensures forall i | n <= i < |s| :: IsBlank(s[i])
    ensures n > 0 ==> !IsBlank(s[n - 1])
  {
    if s == [] || !IsBlank(s[|s| - 1]) then |s|
    else WithoutTrailingBlanks(s[..|s| - 1])
  }

  /** String.trim: s without its leading and trailing blanks. */
  function Trim(s: string): (r: string)
    ensures r == [] || (!IsBlank(r[0]) && !IsBlank(r[|r| - 1]))
    ensures LeadingBlanks(s) + |r| <= |s|
    ensures r == s[LeadingBlanks(s)..LeadingBlanks(s) + |r|]
    ensures forall k | LeadingBlanks(s) + |r| <= k < |s| :: IsBlank(s[k])
  {
    var i := LeadingBlanks(s);
    var rest := s[i..];
    var n := WithoutTrailingBlanks(rest);
    assert forall k | n <= k < |rest| :: rest[k] == s[i + k];
    rest[..n]
  }

  /** Trimming twice trims no more than trimming once. */
  lemma TrimIsIdempotent(s: string)
    ensures Trim(Trim(s)) == Trim(s)
  {
    var r := Trim(s);
    if r != [] {
      assert !IsBlank(r[0]);
      assert LeadingBlanks(r) == 0;
      assert WithoutTrailingBlanks(r[0..]) == |r| by {
        assert r[0..] == r;
      }
    }
  }

  /** The endpoint the page calls, normalised to end in a slash: an empty
      setting means the application's own base URL (scheme, host, port and
      context path); a setting that
      already ends in '/' is kept; otherwise one '/' is appended. */
  function NormaliseEndpoint(apiEndpoint: string, baseUrl: string): (r: string)
    ensures |r| > 0 && r[|r| - 1] == '/'
    ensures apiEndpoint == [] ==> r == baseUrl + "/"
    ensures apiEndpoint != [] ==>
      && apiEndpoint <= r
      && |r| <= |apiEndpoint| + 1
      && (r == apiEndpoint <==> apiEndpoint[|apiEndpoint| - 1] == '/')
  {
    if apiEndpoint == "" then baseUrl + "/"
    else if apiEndpoint[|apiEndpoint| - 1] == '/' then apiEndpoint
    else apiEndpoint + "/"
  }

  /** Normalising a normalised endpoint changes nothing. */
  lemma NormaliseIsIdempotent(apiEndpoint: string, baseUrl: string)
    ensures var once := NormaliseEndpoint(apiEndpoint, baseUrl);
      NormaliseEndpoint(once, baseUrl) == once
  {
  }

  const ConfigKeys: set<string> := {"apiEndpoint", "apiEnv", "apiKey"}

  /** The values map that getConfig fills. */
  function ConfigValues(settings: Settings, baseUrl: string): (values: map<string, string>)
    ensures values.Keys == ConfigKeys
    ensures values["apiEndpoint"] == NormaliseEndpoint(settings.apiEndpoint, baseUrl)
    ensures values["apiEnv"] == settings.apiEnv && values["apiKey"] == settings.apiKey
  {
    map["apiEndpoint" := NormaliseEndpoint(settings.apiEndpoint, baseUrl),
        "apiEnv" := settings.apiEnv,
        "apiKey" := settings.apiKey]
  }

  /** The line one map entry contributes to the script. */
  function JsLine(key: string, value: string): string
  {
    "var " + key + " = \"" + Trim(value) + "\";\n"
  }

  /** The iteration order of a HashMap: every key of the map exactly once,
      in an order the model leaves open. */
  predicate IsEnumeration(order: seq<string>, values: map<string, string>)
  {
    && |order| == |values|
    && (forall k | k in order :: k in values)
    && (forall k | k in values :: k in order)
  }

  /** The script for the keys of `order`, in that order: one line per key
      and nothing else. */
  function JsLines(order: seq<string>, values: map<string, string>): string
    requires forall k | k in order :: k in values
  {
    if order == [] then ""
    else JsLine(order[0], values[order[0]]) + JsLines(order[1..], values)
  }

  /** The script of two runs of keys is the two scripts one after the other. */
  lemma {:induction false} JsLinesAppend(a: seq<string>, b: seq<string>, values: map<string, string>)
    requires forall k | k in a :: k in values
    requires forall k | k in b :: k in values
    ensures forall k | k in a + b :: k in values
    ensures JsLines(a + b, values) == JsLines(a, values) + JsLines(b, values)
  {
    if a == [] {
      assert a + b == b;
    } else {
      var c := a + b;
      assert c[0] == a[0];
      assert c[1..] == a[1..] + b;
      JsLinesAppend(a[1..], b, values);
      calc {
        JsLines(c, values);
        JsLine(a[0], values[a[0]]) + JsLines(a[1..] + b, values);
        JsLine(a[0], values[a[0]]) + (JsLines(a[1..], values) + JsLines(b, values));
        JsLines(a, values) + JsLines(b, values);
      }
    }
  }

  /** Appending a key to the order appends its line to the script. */
  lemma JsLinesSnoc(prefix: seq<string>, key: string, values: map<string, string>, buf: string)
    requires forall k | k in prefix :: k in values
    requires key in values
    requires buf == JsLines(prefix, values)
    ensures forall k | k in prefix + [key] :: k in values
    ensures buf + "var " + key + " = \"" + Trim(values[key]) + "\";\n" == JsLines(prefix + [key], values)
  {
    JsLinesAppend(prefix, [key], values);
    var line := JsLine(key, values[key]);
    assert [key][1..] == [];
    assert JsLines([key], values) == line + "";
    assert line + "" == line;
    AppendPieces(buf, "var ", key, " = \"", Trim(values[key]), "\";\n");
  }

  /** String concatenation regrouped, stated over plain variables. */
  lemma AppendPieces(buf: string, a: string, b: string, c: string, d: string, e: string)
    ensures buf + a + b + c + d + e == buf + (a + b + c + d + e)
  {
  }

  /** ConfigController.generateJsValues: appends one line per entry, in the
      map's iteration order, to an initially empty buffer. */
  method GenerateJsValues(values: map<string, string>, order: seq<string>) returns (js: string)
    requires IsEnumeration(order, values)
    ensures js == JsLines(order, values)
  {
    var buf := "";
    var i := 0;
    while i < |order|
      invariant 0 <= i <= |order|
      invariant forall k | k in order[..i] :: k in values
      invariant buf == JsLines(order[..i], values)
    {
      var key := order[i];
      JsLinesSnoc(order[..i], key, values, buf);
      buf := buf + "var " + key + " = \"" + Trim(values[key]) + "\";\n";
      assert order[..i + 1] == order[..i] + [key];
      i := i + 1;
    }
    assert order[..i] == order;
    js := buf;
  }

  /** ConfigController.getConfig: the script for the configured values,
      served with Cache-Control: no-cache. The HashMap's iteration order is
      the parameter `order`; the application's base URL (scheme, host, port and context path) is the parameter `baseUrl`. */
  method GetConfig(settings: Settings, baseUrl: string, order: seq<string>) returns (script: Script)
    requires IsEnumeration(order, ConfigValues(settings, baseUrl))
    ensures script.cacheControl == "no-cache"
    ensures script.body == JsLines(order, ConfigValues(settings, baseUrl))
  {
    var values := map["apiEndpoint" := NormaliseEndpoint(settings.apiEndpoint, baseUrl)];
    values := values["apiEnv" := settings.apiEnv];
    values := values["apiKey" := settings.apiKey];
    var body := GenerateJsValues(values, order);
    script := Script("no-cache", body);
  }

  /** The script splits around any position of the iteration order. */
  lemma JsLinesSplit(order: seq<string>, values: map<string, string>, i: int)
    requires forall k | k in order :: k in values
    requires 0 <= i < |order|
    ensures JsLines(order, values)
            == JsLines(order[..i], values) + JsLine(order[i], values[order[i]]) + JsLines(order[i + 1..], values)
  {
    var before, rest := order[..i], order[i..];
    assert order == before + rest;
    JsLinesAppend(before, rest, values);
    assert rest[1..] == order[i + 1..];
  }

  /** Each entry of the map contributes exactly its own line, at the
      position of its key in the iteration order, between the lines of the
      keys before it and those after it. */
  lemma EachEntryHasItsLine(order: seq<string>, values: map<string, string>, key: string)
    requires IsEnumeration(order, values)
    requires key in values
    ensures exists i | 0 <= i < |order| ::
      && order[i] == key
      && JsLines(order, values)
         == JsLines(order[..i], values) + JsLine(key, values[key]) + JsLines(order[i + 1..], values)
  {
    var i :| 0 <= i < |order| && order[i] == key;
    JsLinesSplit(order, values, i);
  }

  /** How many times c occurs in s; with c = '\n', the number of
      '\n'-terminated lines. */
  function Count(s: string, c: char): nat
  {
    if s == [] then 0 else (if s[0] == c then 1 else 0) + Count(s[1..], c)
  }

  lemma {:induction false} CountAppend(a: string, b: string, c: char)
    ensures Count(a + b, c) == Count(a, c) + Count(b, c)
  {
    if a == [] {
      assert a + b == b;
    } else {
      assert (a + b)[1..] == a[1..] + b;
      CountAppend(a[1..], b, c);
    }
  }

  lemma {:induction false} CountAbsent(s: string, c: char)
    requires c !in s
    ensures Count(s, c) == 0
  {
    if s != [] {
      CountAbsent(s[1..], c);
    }
  }

  /** A key and a trimmed value free of '\n' make exactly one '\n'-terminated
      line. ('\r', U+2028 and U+2029, which also end a JavaScript line, are
      not counted.) */
  lemma JsLineIsOneLine(key: string, value: string)
    requires '\n' !in key && '\n' !in Trim(value)
    ensures Count(JsLine(key, value), '\n') == 1
  {
    var v := Trim(value);
    CountAbsent(key, '\n');
    CountAbsent(v, '\n');
    CountAppend("var " + key + " = \"" + v, "\";\n", '\n');
    CountAppend("var " + key + " = \"", v, '\n');
    CountAppend("var " + key, " = \"", '\n');
    CountAppend("var ", key, '\n');
  }

  /** With no '\n' inside a key or a trimmed value, the script has exactly
      one '\n'-terminated line per entry. */
  lemma {:induction false} OneLinePerEntry(order: seq<string>, values: map<string, string>)
    requires forall k | k in order :: k in values
    requires forall i | 0 <= i < |order| :: '\n' !in order[i] && '\n' !in Trim(values[order[i]])
    ensures Count(JsLines(order, values), '\n') == |order|
  {
    if order != [] {
      JsLineIsOneLine(order[0], values[order[0]]);
      OneLinePerEntry(order[1..], values);
      CountAppend(JsLine(order[0], values[order[0]]), JsLines(order[1..], values), '\n');
    }
  }

  /** config.js has exactly three '\n'-terminated lines, one per
      configuration value, in whatever order the map yields them, as long as
      no configured value holds a '\n' once trimmed. */
  lemma ConfigScriptHasThreeLines(settings: Settings, baseUrl: string, order: seq<string>)
    requires IsEnumeration(order, ConfigValues(settings, baseUrl))
    requires '\n' !in Trim(NormaliseEndpoint(settings.apiEndpoint, baseUrl))
    requires '\n' !in Trim(settings.apiEnv) && '\n' !in Trim(settings.apiKey)
    ensures Count(JsLines(order, ConfigValues(settings, baseUrl)), '\n') == 3
  {
    var values := ConfigValues(settings, baseUrl);
    assert |ConfigKeys| == 3;
    assert |values| == |values.Keys|;
    forall i | 0 <= i < |order|
      ensures '\n' !in order[i] && '\n' !in Trim(values[order[i]])
    {
      assert order[i] in ConfigKeys;
    }
    OneLinePerEntry(order, values);
  }
}
