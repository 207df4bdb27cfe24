/**
 * How a request reaches a page: the form link printed in every QR code
 * (`_build_form_url`), the query-parameter lookup (`_get_param_value`) and
 * the three-way dispatch of `main`.
 */
module Routing {
  import opened Wrappers
  import opened Text

  /** `_build_form_url`: `&` joins a base that already carries a query, `?` starts one otherwise. */
  function BuildFormUrl(base: string, token: string): (url: string)
    ensures |url| == |base| + 1 + |"view=form&token="| + |token|
    ensures url[..|base|] == base
    ensures url[|base|] == (if '?' in base then '&' else '?')
    ensures url[|base| + 1..] == "view=form" + ['&'] + ("token=" + token)
  {
    var sep := if '?' in base then '&' else '?';
    base + [sep] + ("view=form" + ['&'] + ("token=" + token))
  }

  /** On a base without a query, the link is the base, `?`, and the two parameters as one text. */
  lemma FormUrlText(base: string, token: string)
    requires '?' !in base
    ensures BuildFormUrl(base, token) == base + "?view=form&token=" + token
  {
    assert ['?'] + ("view=form" + ['&'] + ("token=" + token)) == "?view=form&token=" + token;
  }

  /** A query parameter as Streamlit hands it over: one string, or a list of them. */
  datatype ParamValue = Text(s: string) | Texts(values: seq<string>)

  /** `_get_param_value`: a list yields its first element, an empty list or a missing key nothing. */
  function GetParamValue(params: map<string, ParamValue>, key: string): (r: Option<string>)
    ensures r.None? <==> key !in params || params[key] == Texts([])
    ensures r.Some? ==>
      (params[key] == Text(r.value)
       || (params[key].Texts? && |params[key].values| > 0 && params[key].values[0] == r.value))
  {
    if key !in params then None
    else match params[key]
      case Text(s) => Some(s)
      case Texts(vs) => if vs == [] then None else Some(vs[0])
  }

  datatype Page = PublicFormPage(token: string) | ReviewPage | AdminPage

  /** `main`: the public form needs `view=form` and a non-empty token; `view=review` is the review page; anything else is the admin section. */
  function Route(params: map<string, ParamValue>): (page: Page)
    ensures page.PublicFormPage? <==>
      GetParamValue(params, "view") == Some("form") && GetParamValue(params, "token").Some?
      && GetParamValue(params, "token").value != []
    ensures page.PublicFormPage? ==> GetParamValue(params, "token") == Some(page.token)
    ensures page == ReviewPage <==> GetParamValue(params, "view") == Some("review")
  {
    var view := GetParamValue(params, "view");
    var token := GetParamValue(params, "token");
    if view == Some("form") && token.Some? && token.value != [] then PublicFormPage(token.value)
    else if view == Some("review") then ReviewPage
    else AdminPage
  }

  /** `s.split(sep)`: the pieces between separators, the empty string included. */
  function SplitOn(s: string, sep: char): (parts: seq<string>)
    ensures |parts| >= 1
  {
    if s == [] then [[]]
    else
      var init := SplitOn(s[..|s| - 1], sep);
      if s[|s| - 1] == sep then init + [[]]
      else init[..|init| - 1] + [init[|init| - 1] + [s[|s| - 1]]]
  }

  /** A string without the separator is a single piece. */
  lemma {:induction false} SplitOnWhole(s: string, sep: char)
    requires sep !in s
    ensures SplitOn(s, sep) == [s]
  {
    if s != [] {
      assert sep !in s[..|s| - 1] by {
        assert forall k :: 0 <= k < |s| - 1 ==> s[..|s| - 1][k] == s[k];
      }
      SplitOnWhole(s[..|s| - 1], sep);
      assert s[..|s| - 1] + [s[|s| - 1]] == s;
    }
  }

  /** Splitting at the last separator: the pieces before it, then the piece after it. */
  lemma {:induction false} SplitOnLast(x: string, sep: char, y: string)
    requires sep !in y
    ensures SplitOn(x + [sep] + y, sep) == SplitOn(x, sep) + [y]
  {
    if y == [] {
      assert (x + [sep] + y)[..|x + [sep] + y| - 1] == x;
    } else {
      var y' := y[..|y| - 1];
      assert sep !in y' by {
        assert forall k :: 0 <= k < |y'| ==> y'[k] == y[k];
      }
      assert (x + [sep] + y)[..|x + [sep] + y| - 1] == x + [sep] + y';
      SplitOnLast(x, sep, y');
      assert y' + [y[|y| - 1]] == y;
    }
  }

  /**
   * The query string as a browser reads a URL: what follows the first `?`
   * up to the first `#`. A `?` inside the fragment starts no query.
   */
  function QueryString(url: string): string {
    var page := url[..IndexOf(url, '#')];
    var q := IndexOf(page, '?');
    if q < |page| then page[q + 1..] else []
  }

  /** One `key=value` pair, split at its first `=`. */
  function ParsePair(pair: string): (string, string) {
    var e := IndexOf(pair, '=');
    if e < |pair| then (pair[..e], pair[e + 1..]) else (pair, [])
  }

  /** Pairs read left to right; a repeated key keeps its last value, as `st.query_params` reads it. */
  function ParamsOf(pairs: seq<string>): map<string, ParamValue> {
    if pairs == [] then map[]
    else
      var kv := ParsePair(pairs[|pairs| - 1]);
      ParamsOf(pairs[..|pairs| - 1])[kv.0 := Text(kv.1)]
  }

  function QueryParams(url: string): map<string, ParamValue> {
    ParamsOf(SplitOn(QueryString(url), '&'))
  }

  /** The characters of `uuid4().hex`. */
  predicate HexToken(t: string) {
    forall k :: 0 <= k < |t| ==> '0' <= t[k] <= '9' || 'a' <= t[k] <= 'f'
  }

  /** What a form link's query holds before `view=form`: the base's own query and a `&`, if it has one. */
  function FormQueryPrefix(base: string): string {
    if '?' in base then base[IndexOf(base, '?') + 1..] + ['&'] else []
  }

  /** The query string of a form link: the base's own query, if any, then the two parameters. */
  lemma {:induction false} FormUrlQuery(base: string, token: string)
    requires '#' !in base && HexToken(token)
    ensures QueryString(BuildFormUrl(base, token))
         == FormQueryPrefix(base) + ("view=form" + ['&'] + ("token=" + token))
  {
    var url := BuildFormUrl(base, token);
    var q := IndexOf(base, '?');
    assert forall k :: 0 <= k < |base| ==> url[k] == base[k];
    NoFragment(base, token);
    assert url[..IndexOf(url, '#')] == url;
    IndexOfFirst(url, '?', q);
    assert url[q + 1..] == FormQueryPrefix(base) + ("view=form" + ['&'] + ("token=" + token));
  }

  /** A form link on a base without `#` has no fragment. */
  lemma NoFragment(base: string, token: string)
    requires '#' !in base && HexToken(token)
    ensures IndexOf(BuildFormUrl(base, token), '#') == |BuildFormUrl(base, token)|
  {
    var url := BuildFormUrl(base, token);
    var tail := "view=form" + ['&'] + ("token=" + token);
    assert forall k :: 16 <= k < |tail| ==> tail[k] == token[k - 16];
    assert forall k :: 0 <= k < |tail| ==> tail[k] != '#';
    forall k | 0 <= k < |url| ensures url[k] != '#' {
      if k < |base| {
        assert url[k] == url[..|base|][k];
      } else if k > |base| {
        assert url[k] == tail[k - |base| - 1];
      }
    }
  }

  /** A hex token holds no `&`, so its pair cannot be split. */
  lemma TokenPairWhole(token: string)
    requires HexToken(token)
    ensures '&' !in "token=" + token
  {
    var last := "token=" + token;
    assert forall k :: 6 <= k < |last| ==> last[k] == token[k - 6];
  }

  /** The pairs of a form link end with `view=form` and `token=<token>`. */
  lemma FormUrlPairs(base: string, token: string) returns (front: seq<string>)
    requires '#' !in base && HexToken(token)
    ensures SplitOn(QueryString(BuildFormUrl(base, token)), '&') == front + ["view=form", "token=" + token]
  {
    FormUrlQuery(base, token);
    TokenPairWhole(token);
    front := TrailingPairs(FormQueryPrefix(base), "view=form", "token=" + token);
  }

  /** After `prefix`, which is empty or ends in `&`, the pairs `mid` and `last` come last. */
  lemma TrailingPairs(prefix: string, mid: string, last: string) returns (front: seq<string>)
    requires prefix == [] || prefix[|prefix| - 1] == '&'
    requires '&' !in mid && '&' !in last
    ensures SplitOn(prefix + (mid + ['&'] + last), '&') == front + [mid, last]
  {
    var head := prefix + mid;
    assert prefix + (mid + ['&'] + last) == head + ['&'] + last;
    SplitOnLast(head, '&', last);
    if prefix == [] {
      assert head == mid;
      SplitOnWhole(mid, '&');
      front := [];
    } else {
      var bq := prefix[..|prefix| - 1];
      assert head == bq + ['&'] + mid;
      SplitOnLast(bq, '&', mid);
      front := SplitOn(bq, '&');
    }
    assert front + [mid] + [last] == front + [mid, last];
  }

  /** Whatever came before, the last `view` and `token` pairs decide both parameters. */
  lemma LastPairsWin(front: seq<string>, token: string)
    ensures var params := ParamsOf(front + ["view=form", "token=" + token]);
      GetParamValue(params, "view") == Some("form") && GetParamValue(params, "token") == Some(token)
  {
    var last := "token=" + token;
    var pairs := front + ["view=form", last];
    IndexOfFirst("view=form", '=', 4);
    IndexOfFirst(last, '=', 5);
    assert last[..5] == "token" && last[6..] == token;
    assert "view=form"[..4] == "view" && "view=form"[5..] == "form";
    var mid := front + ["view=form"];
    assert pairs[..|pairs| - 1] == mid && pairs[|pairs| - 1] == last;
    assert mid[..|mid| - 1] == front && mid[|mid| - 1] == "view=form";
    assert ParamsOf(mid) == ParamsOf(front)["view" := Text("form")];
    assert ParamsOf(pairs) == ParamsOf(mid)["token" := Text(token)];
  }

  /**
   * Scanning a printed code opens the public form for its token, whatever
   * query the configured base URL carries: the two parameters the link appends
   * come last, so they win over any `view` or `token` the base already has.
   */
  lemma FormUrlOpensForm(base: string, token: string)
    requires '#' !in base
    requires token != [] && HexToken(token)
    ensures Route(QueryParams(BuildFormUrl(base, token))) == PublicFormPage(token)
  {
    var front := FormUrlPairs(base, token);
    LastPairsWin(front, token);
  }

  /**
   * A base URL with a fragment and no query, such as `http://host/#app`, gets
   * the parameters appended after the `#`; the browser keeps them out of the
   * query, so the scan lands on the admin section.
   */
  lemma FragmentBaseOpensAdmin(base: string, token: string)
    requires '#' in base && '?' !in base
    ensures Route(QueryParams(BuildFormUrl(base, token))) == AdminPage
  {
    var url := BuildFormUrl(base, token);
    var h := IndexOf(base, '#');
    assert forall k :: 0 <= k < |base| ==> url[k] == base[k];
    IndexOfFirst(url, '#', h);
    var page := url[..h];
    assert '?' !in page by {
      assert forall k :: 0 <= k < |page| ==> page[k] == base[k];
    }
    assert IndexOf(page, '?') == |page|;
    assert QueryString(url) == [];
    var pairs: seq<string> := [[]];
    assert SplitOn([], '&') == pairs;
    assert pairs[..|pairs| - 1] == [];
    assert ParsePair([]) == ([], []);
    assert QueryParams(url) == map[[] := Text([])];
  }
}
