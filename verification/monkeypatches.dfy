/**
  The String and Symbol patches of the Acceleration gem: converting Ruby
  method names (underscored) into Velocity API function names (dashed), and
  back. Ruby's `downcase` is modelled on ASCII letters only.
 */
module Monkeypatches {

  /** A Ruby String or Symbol; `text` is what `to_s` returns. */
  datatype Name = Str(text: string) | Sym(text: string)

  /** An ASCII upper-case letter. */
  predicate IsUpper(c: char) {
    'A' <= c <= 'Z'
  }

  /** A Velocity function name: nothing upper-case and no underscore. */
  predicate IsWireName(s: string) {
    forall i :: 0 <= i < |s| ==> !IsUpper(s[i]) && s[i] != '_'
  }

  /** A Ruby method name that `dasherize` can recover: nothing upper-case and no dash. */
  predicate IsRubyName(s: string) {
    forall i :: 0 <= i < |s| ==> !IsUpper(s[i]) && s[i] != '-'
  }

  /** ASCII `downcase` of one character. */
  function DowncaseChar(c: char): char {
    if IsUpper(c) then (c as int + 32) as char else c
  }

  /** `String#downcase`. */
  function Downcase(s: string): string {
    if s == [] then [] else [DowncaseChar(s[0])] + Downcase(s[1..])
  }

  /** `String#tr(from, to)` with one-character sets. */
  function Tr(s: string, from: char, to: char): string {
    if s == [] then [] else [if s[0] == from then to else s[0]] + Tr(s[1..], from, to)
  }

  /** `String#gsub` of a one-character pattern by a replacement string. */
  function Gsub(s: string, pattern: char, replacement: string): string {
    if s == [] then []
    else (if s[0] == pattern then replacement else [s[0]]) + Gsub(s[1..], pattern, replacement)
  }

  /** What `dasherize` makes of a single character. */
  function WireChar(c: char): char {
    if c == '_' then '-' else DowncaseChar(c)
  }

  lemma {:induction false} DowncaseCharwise(s: string)
    ensures |Downcase(s)| == |s|
    ensures forall i :: 0 <= i < |s| ==> Downcase(s)[i] == DowncaseChar(s[i])
  {
    if s != [] {
      DowncaseCharwise(s[1..]);
    }
  }

  lemma {:induction false} TrCharwise(s: string, from: char, to: char)
    ensures |Tr(s, from, to)| == |s|
    ensures forall i :: 0 <= i < |s| ==> Tr(s, from, to)[i] == (if s[i] == from then to else s[i])
  {
    if s != [] {
      TrCharwise(s[1..], from, to);
    }
  }

  /** With a one-character replacement, `gsub` of a one-character pattern is `tr`. */
  lemma {:induction false} GsubOneCharIsTr(s: string, pattern: char, replacement: char)
    ensures Gsub(s, pattern, [replacement]) == Tr(s, pattern, replacement)
  {
    if s != [] {
      GsubOneCharIsTr(s[1..], pattern, replacement);
    }
  }

  /** `String#dasherize`: `downcase.tr('_', '-')`. */
  function Dasherize(s: string): (r: string)
    ensures |r| == |s|
    ensures IsWireName(r)
  {
    DowncaseCharwise(s);
    TrCharwise(Downcase(s), '_', '-');
    Tr(Downcase(s), '_', '-')
  }

  /** `String#dedasherize`: `tr('-', '_')`, case kept. */
  function Dedasherize(s: string): (r: string)
    ensures |r| == |s|
    ensures forall i :: 0 <= i < |r| ==> r[i] != '-'
    ensures forall i :: 0 <= i < |s| && s[i] != '-' ==> r[i] == s[i]
    ensures forall i :: 0 <= i < |s| && s[i] == '-' ==> r[i] == '_'
  {
    TrCharwise(s, '-', '_');
    Tr(s, '-', '_')
  }

  /** `dasherize` works character by character. */
  lemma DasherizeCharwise(s: string)
    ensures forall i :: 0 <= i < |s| ==> Dasherize(s)[i] == WireChar(s[i])
  {
    DowncaseCharwise(s);
    TrCharwise(Downcase(s), '_', '-');
  }

  /** Dasherizing a wire name changes nothing. */
  lemma DasherizeFixesWireNames(w: string)
    requires IsWireName(w)
    ensures Dasherize(w) == w
  {
    DasherizeCharwise(w);
  }

  lemma DasherizeIdempotent(s: string)
    ensures Dasherize(Dasherize(s)) == Dasherize(s)
  {
    DasherizeFixesWireNames(Dasherize(s));
  }

  /** `dasherize` cannot tell whether `dedasherize` ran first. */
  lemma DasherizeAbsorbsDedasherize(t: string)
    ensures Dasherize(Dedasherize(t)) == Dasherize(t)
  {
    DasherizeCharwise(t);
    DasherizeCharwise(Dedasherize(t));
  }

  /** Round trip from the wire side: a dasherized name survives `dedasherize` then `dasherize`. */
  lemma WireRoundTrip(s: string)
    ensures Dasherize(Dedasherize(Dasherize(s))) == Dasherize(s)
  {
    DasherizeAbsorbsDedasherize(Dasherize(s));
    DasherizeIdempotent(s);
  }

  /** Every wire name is recovered from its Ruby form. */
  lemma WireNameRoundTrip(w: string)
    requires IsWireName(w)
    ensures Dasherize(Dedasherize(w)) == w
  {
    DasherizeAbsorbsDedasherize(w);
    DasherizeFixesWireNames(w);
  }

  /** Every lower-case, dash-free Ruby name is recovered from its wire form. */
  lemma RubyNameRoundTrip(s: string)
    requires IsRubyName(s)
    ensures Dedasherize(Dasherize(s)) == s
  {
    DasherizeCharwise(s);
  }

  /** `Symbol#dasherize`: `to_s.downcase.tr('_', '-').to_sym`. */
  function SymbolDasherize(y: Name): (r: Name)
    requires y.Sym?
    ensures r == Sym(Dasherize(y.text))
  {
    Sym(Tr(Downcase(y.text), '_', '-'))
  }

  /** `Symbol#dedasherize`: `to_s.tr('-', '_').to_sym`. */
  function SymbolDedasherize(y: Name): (r: Name)
    requires y.Sym?
    ensures r == Sym(Dedasherize(y.text))
  {
    Sym(Tr(y.text, '-', '_'))
  }

  /** `full_merge`, the Ruby name of the indexer action, in wire form. */
  lemma FullMergeExample()
    ensures Dasherize("full_merge") == "full-merge"
  {
    var s, w := "full_merge", "full-merge";
    DasherizeCharwise(s);
    assert forall i :: 0 <= i < |s| ==> Dasherize(s)[i] == w[i];
  }
}
