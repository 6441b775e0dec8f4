/** The WordPress collaborators the plugin talks to: its sanitising and escaping helpers
    (kept abstract), HTTP results, JSON replies, the options table with its transients,
    and the SQL `LIKE` test used against option names. */
module WordPress {
  import opened Strings
  import opened Php

  /** The WordPress helpers the plugin calls. Their definitions belong to WordPress, so
      each is a parameter standing for the real function. `sanitizeHexColor` gives back
      a colour string, `''` or null. */
  datatype Host = Host(
    sanitizeTextField: Value -> string,
    sanitizeTextareaField: Value -> string,
    sanitizeHexColor: Value -> Value,
    escHtml: string -> string,
    isEmail: Value -> bool)

  /** A `WP_Error`: a code and a message. */
  datatype WpError = WpError(code: string, message: string)

  /** What an HTTP call returns: the transport's own error, or a status code and the
      body after `json_decode(..., true)` (null when the body is not JSON). */
  datatype HttpResult = TransportError(error: WpError) | Response(status: int, body: Value)

  /** The JSON envelope an AJAX handler sends: `wp_send_json_success` with one field
      of data, or `wp_send_json_error` with a message. */
  datatype AjaxReply = Success(field: string, text: string) | Failure(message: string)

  // ---------------------------------------------------------------------------
  // Options and transients

  /** The option that holds transient `key`'s value, and the one that holds its expiry. */
  function TransientOption(key: string): string {
    "_transient_" + key
  }

  function TimeoutOption(key: string): string {
    "_transient_timeout_" + key
  }

  /** The site's options table (`wp_options`), transients included. */
  class OptionStore {
    var options: map<string, Value>

    constructor (initial: map<string, Value>)
      ensures options == initial
    {
      options := initial;
    }

    /** `get_option($name, $default)`. */
    function GetOption(name: string, default: Value): Value
      reads this
    {
      if name in options then options[name] else default
    }

    /** `update_option($name, $v)`. */
    method UpdateOption(name: string, v: Value)
      modifies this
      ensures options == old(options)[name := v]
    {
      options := options[name := v];
    }

    /** `delete_option($name)`. */
    method DeleteOption(name: string)
      modifies this
      ensures options == old(options) - {name}
    {
      options := options - {name};
    }

    /** `set_transient($key, $v, $ttl)` at time `now`, with no external object cache:
        the value and its expiry are two options. */
    method SetTransient(key: string, v: Value, ttl: int, now: int)
      modifies this
      ensures options == old(options)[TransientOption(key) := v][TimeoutOption(key) := Int(now + ttl)]
    {
      options := options[TransientOption(key) := v][TimeoutOption(key) := Int(now + ttl)];
    }

    /** `DELETE FROM options WHERE option_name LIKE pattern`. */
    method DeleteWhereLike(pattern: string)
      modifies this
      ensures options == map k | k in old(options) && !Like(k, pattern) :: old(options)[k]
    {
      options := map k | k in options && !Like(k, pattern) :: options[k];
    }

    /** `delete_transient($key)`: removes the value, and the expiry only when there was a
        value to remove; the result says whether the value was there. */
    method DeleteTransient(key: string) returns (deleted: bool)
      modifies this
      ensures deleted <==> TransientOption(key) in old(options)
      ensures deleted ==> options == old(options) - {TransientOption(key), TimeoutOption(key)}
      ensures !deleted ==> options == old(options)
    {
      deleted := TransientOption(key) in options;
      if deleted {
        options := options - {TransientOption(key), TimeoutOption(key)};
      }
    }
  }

  // ---------------------------------------------------------------------------
  // SQL LIKE on option names

  /** A compiled `LIKE` pattern: a literal character, `_` (any one character) or `%`
      (any run of characters, possibly empty). */
  datatype LikeToken = Lit(c: char) | AnyChar | AnyRun

  /** Reads a pattern; a backslash makes the next character literal. */
  function LikeTokens(p: string): seq<LikeToken>
    decreases |p|
  {
    if p == [] then []
    else if p[0] == '\\' && |p| > 1 then [Lit(p[1])] + LikeTokens(p[2..])
    else if p[0] == '_' then [AnyChar] + LikeTokens(p[1..])
    else if p[0] == '%' then [AnyRun] + LikeTokens(p[1..])
    else [Lit(p[0])] + LikeTokens(p[1..])
  }

  /** The options table's collation compares letters without regard to case. */
  function Fold(c: char): char {
    if 'A' <= c <= 'Z' then (c as int + 32) as char else c
  }

  predicate LikeMatch(ts: seq<LikeToken>, s: string)
    decreases |ts|, |s|
  {
    if ts == [] then s == []
    else match ts[0]
      case Lit(c) => s != [] && Fold(s[0]) == Fold(c) && LikeMatch(ts[1..], s[1..])
      case AnyChar => s != [] && LikeMatch(ts[1..], s[1..])
      case AnyRun => LikeMatch(ts[1..], s) || (s != [] && LikeMatch(ts, s[1..]))
  }

  /** `name LIKE pattern`. */
  predicate Like(name: string, pattern: string) {
    LikeMatch(LikeTokens(pattern), name)
  }

  /** `$wpdb->esc_like($s)`: a backslash before every `_`, `%` and `\`. */
  function EscLike(s: string): string {
    if s == [] then []
    else if s[0] == '_' || s[0] == '%' || s[0] == '\\' then ['\\', s[0]] + EscLike(s[1..])
    else [s[0]] + EscLike(s[1..])
  }

  /** `w` is a prefix of `s` up to the collation's case folding. */
  predicate FoldedPrefix(w: string, s: string) {
    |w| <= |s| && forall i :: 0 <= i < |w| ==> Fold(s[i]) == Fold(w[i])
  }

  function Lits(w: string): (r: seq<LikeToken>)
    ensures |r| == |w|
  {
    if w == [] then [] else [Lit(w[0])] + Lits(w[1..])
  }

  lemma LikeTokensEscaped(c: char, x: string)
    ensures LikeTokens(['\\', c] + x) == [Lit(c)] + LikeTokens(x)
  {
    var p := ['\\', c] + x;
    assert p[0] == '\\' && p[1] == c && p[2..] == x;
  }

  lemma LikeTokensPlain(c: char, x: string)
    requires c != '\\' && c != '_' && c != '%'
    ensures LikeTokens([c] + x) == [Lit(c)] + LikeTokens(x)
  {
    var p := [c] + x;
    assert p[0] == c && p[1..] == x;
  }

  /** The first character of an escaped text reads back as one literal token. */
  lemma EscLikeHead(w: string, rest: string)
    requires w != []
    ensures LikeTokens(EscLike(w) + rest) == [Lit(w[0])] + LikeTokens(EscLike(w[1..]) + rest)
  {
    var c := w[0];
    var x := EscLike(w[1..]) + rest;
    if c == '_' || c == '%' || c == '\\' {
      assert EscLike(w) + rest == ['\\', c] + x;
      LikeTokensEscaped(c, x);
    } else {
      assert EscLike(w) + rest == [c] + x;
      LikeTokensPlain(c, x);
    }
  }

  /** An escaped text reads back as the literal text. */
  lemma {:induction false} EscLikeTokens(w: string, rest: string)
    ensures LikeTokens(EscLike(w) + rest) == Lits(w) + LikeTokens(rest)
  {
    if w == [] {
      assert EscLike(w) + rest == rest;
    } else {
      EscLikeHead(w, rest);
      EscLikeTokens(w[1..], rest);
      assert Lits(w) == [Lit(w[0])] + Lits(w[1..]);
    }
  }

  /** `% ` at the end matches anything. */
  lemma AnyRunMatchesAll(s: string)
    ensures LikeMatch([AnyRun], s)
    decreases |s|
  {
    if s != [] { AnyRunMatchesAll(s[1..]); }
  }

  /** A literal prefix followed by `%` matches exactly the names that start with that
      prefix, up to case. */
  lemma {:induction false} LitsPrefixMatch(w: string, s: string)
    ensures LikeMatch(Lits(w) + [AnyRun], s) <==> FoldedPrefix(w, s)
    decreases |w|
  {
    if w == [] {
      assert Lits(w) + [AnyRun] == [AnyRun];
      AnyRunMatchesAll(s);
    } else {
      assert (Lits(w) + [AnyRun])[1..] == Lits(w[1..]) + [AnyRun];
      if s != [] {
        LitsPrefixMatch(w[1..], s[1..]);
        if FoldedPrefix(w[1..], s[1..]) && Fold(s[0]) == Fold(w[0]) {
          forall i | 0 <= i < |w| ensures Fold(s[i]) == Fold(w[i]) {
            if i > 0 { assert Fold(s[1..][i - 1]) == Fold(w[1..][i - 1]); }
          }
        }
        if FoldedPrefix(w, s) {
          forall i | 0 <= i < |w| - 1 ensures Fold(s[1..][i]) == Fold(w[1..][i]) {
            assert Fold(s[i + 1]) == Fold(w[i + 1]);
          }
        }
      }
    }
  }

  /** `name LIKE esc_like(w) . '%'` holds exactly when `name` starts with `w`, up to case. */
  lemma EscapedPrefixLike(w: string, s: string)
    ensures Like(s, EscLike(w) + "%") <==> FoldedPrefix(w, s)
  {
    EscLikeTokens(w, "%");
    assert LikeTokens("%") == [AnyRun] by {
      assert "%"[0] == '%' && "%"[1..] == [];
    }
    LitsPrefixMatch(w, s);
  }

  /** The pattern a plain text stands for when `_` is left unescaped: every `_` is a wildcard. */
  function Wild(w: string): (r: seq<LikeToken>)
    ensures |r| == |w|
  {
    if w == [] then [] else [if w[0] == '_' then AnyChar else Lit(w[0])] + Wild(w[1..])
  }

  predicate PlainPattern(w: string) {
    forall i :: 0 <= i < |w| ==> w[i] != '%' && w[i] != '\\'
  }

  lemma {:induction false} PlainTokens(w: string)
    requires PlainPattern(w)
    ensures LikeTokens(w + "%") == Wild(w) + [AnyRun]
  {
    if w != [] {
      PlainTokens(w[1..]);
      assert (w + "%")[1..] == w[1..] + "%";
    }
  }

  /** `w` is a prefix of `s` up to case, where each `_` of `w` stands for any character. */
  predicate WildPrefix(w: string, s: string) {
    |w| <= |s| && forall i :: 0 <= i < |w| ==> w[i] == '_' || Fold(s[i]) == Fold(w[i])
  }

  /** An unescaped pattern `w%` matches exactly the names that start with `w` up to case,
      each `_` of `w` matching any one character. */
  lemma {:induction false} WildPrefixMatch(w: string, s: string)
    ensures LikeMatch(Wild(w) + [AnyRun], s) <==> WildPrefix(w, s)
    decreases |w|
  {
    if w == [] {
      assert Wild(w) + [AnyRun] == [AnyRun];
      AnyRunMatchesAll(s);
    } else {
      assert (Wild(w) + [AnyRun])[1..] == Wild(w[1..]) + [AnyRun];
      assert (Wild(w) + [AnyRun])[0] == if w[0] == '_' then AnyChar else Lit(w[0]);
      if s != [] {
        WildPrefixMatch(w[1..], s[1..]);
        if WildPrefix(w[1..], s[1..]) && (w[0] == '_' || Fold(s[0]) == Fold(w[0])) {
          forall i | 0 <= i < |w| ensures w[i] == '_' || Fold(s[i]) == Fold(w[i]) {
            if i > 0 { assert w[1..][i - 1] == w[i] && s[1..][i - 1] == s[i]; }
          }
        }
        if WildPrefix(w, s) {
          forall i | 0 <= i < |w| - 1 ensures w[1..][i] == '_' || Fold(s[1..][i]) == Fold(w[1..][i]) {
            assert w[i + 1] == '_' || Fold(s[i + 1]) == Fold(w[i + 1]);
          }
        }
      }
    }
  }

  /** `name LIKE 'w%'` for a pattern text without `%` or backslash. */
  lemma PlainPrefixLike(w: string, s: string)
    requires PlainPattern(w)
    ensures Like(s, w + "%") <==> WildPrefix(w, s)
  {
    PlainTokens(w);
    WildPrefixMatch(w, s);
  }
}
