/**
 * Tracer::getEnvTags: the JAEGER_TAGS server variable, a comma-separated
 * list of key=value pairs, parsed into a tag map. PHP's explode is modelled
 * for a one-character separator.
 */
module EnvTags {
  import opened Wrappers
  import opened Types

  /** explode(sep, s): the pieces of `s` between occurrences of `sep`. */
  function Split(s: string, sep: char): (r: seq<string>)
    ensures |r| >= 1
    decreases |s|
  {
    if s == [] then [""]
    else
      var rest := Split(s[1..], sep);
      if s[0] == sep then [""] + rest
      else [[s[0]] + rest[0]] + rest[1..]
  }

  /** No piece of `s` contains the separator. */
  lemma {:induction false} SplitPiecesLackSeparator(s: string, sep: char)
    ensures forall k :: 0 <= k < |Split(s, sep)| ==> sep !in Split(s, sep)[k]
    decreases |s|
  {
    if s != [] {
      SplitPiecesLackSeparator(s[1..], sep);
      var rest := Split(s[1..], sep);
      if s[0] != sep {
        assert forall c :: c in [s[0]] + rest[0] ==> c == s[0] || c in rest[0];
      }
    }
  }

  /** implode(sep, pieces), the inverse of explode. */
  function Join(pieces: seq<string>, sep: char): string
    requires |pieces| >= 1
    decreases |pieces|
  {
    if |pieces| == 1 then pieces[0] else pieces[0] + [sep] + Join(pieces[1..], sep)
  }

  /** Joining the pieces of `s` gives back `s`. */
  lemma {:induction false} JoinSplit(s: string, sep: char)
    ensures Join(Split(s, sep), sep) == s
    decreases |s|
  {
    if s != [] {
      var rest := Split(s[1..], sep);
      JoinSplit(s[1..], sep);
      if s[0] != sep && |rest| > 1 {
        assert Join(rest, sep) == rest[0] + [sep] + Join(rest[1..], sep);
        assert Join(Split(s, sep), sep) == [s[0]] + rest[0] + [sep] + Join(rest[1..], sep);
      }
    }
  }

  lemma {:induction false} SplitNoSeparator(a: string, sep: char)
    requires sep !in a
    ensures Split(a, sep) == [a]
    decreases |a|
  {
    if a != [] {
      SplitNoSeparator(a[1..], sep);
      assert [a[0]] + a[1..] == a;
    }
  }

  lemma {:induction false} SplitAtSeparator(a: string, sep: char, b: string)
    requires sep !in a
    ensures Split(a + [sep] + b, sep) == [a] + Split(b, sep)
    decreases |a|
  {
    var s := a + [sep] + b;
    if a == [] {
      assert s[1..] == b;
    } else {
      assert s[1..] == a[1..] + [sep] + b;
      SplitAtSeparator(a[1..], sep, b);
      assert [a[0]] + a[1..] == a;
    }
  }

  /** Splitting pieces that do not contain the separator after joining them gives back the pieces. */
  lemma {:induction false} SplitJoin(pieces: seq<string>, sep: char)
    requires |pieces| >= 1
    requires forall k :: 0 <= k < |pieces| ==> sep !in pieces[k]
    ensures Split(Join(pieces, sep), sep) == pieces
    decreases |pieces|
  {
    if |pieces| == 1 {
      SplitNoSeparator(pieces[0], sep);
    } else {
      SplitJoin(pieces[1..], sep);
      SplitAtSeparator(pieces[0], sep, Join(pieces[1..], sep));
      assert [pieces[0]] + pieces[1..] == pieces;
    }
  }

  /**
   * The first piece of `s` is a prefix of `s` without the separator, and it
   * is the only piece exactly when `s` has no separator.
   */
  lemma {:induction false} SplitHead(s: string, sep: char)
    ensures var r := Split(s, sep);
      && r[0] <= s
      && sep !in r[0]
      && (|r| == 1 <==> sep !in s)
      && (sep !in s ==> r[0] == s)
      && (r[0] == s || (|r[0]| < |s| && s[|r[0]|] == sep))
    decreases |s|
  {
    if sep !in s {
      SplitNoSeparator(s, sep);
    }
    if s != [] {
      SplitHead(s[1..], sep);
      var rest := Split(s[1..], sep);
      assert s == [s[0]] + s[1..];
      if s[0] != sep {
        assert forall c :: c in [s[0]] + rest[0] ==> c == s[0] || c in rest[0];
        assert sep in s <==> sep in s[1..];
      }
    }
  }

  /** `list($key, $value) = explode('=', $piece)`: the key is the text before the first '='. */
  function KeyOf(piece: string): (key: string)
    ensures key <= piece && '=' !in key
    ensures '=' !in piece ==> key == piece
    ensures key == piece || (|key| < |piece| && piece[|key|] == '=')
  {
    SplitHead(piece, '=');
    Split(piece, '=')[0]
  }

  /**
   * The value is the text between the first and the second '=' (or the end
   * of the piece), or null when there is no '='; anything after a second '='
   * is dropped.
   */
  function ValueOf(piece: string): (value: TagValue)
    ensures value.Null? <==> '=' !in piece
    ensures value.Text? ==> '=' !in value.text
    ensures value.Text? ==>
      var after := piece[|KeyOf(piece)| + 1..];
      && value.text <= after
      && (value.text == after || after[|value.text|] == '=')
  {
    SplitHead(piece, '=');
    SplitPiecesLackSeparator(piece, '=');
    var kv := Split(piece, '=');
    if |kv| >= 2 then
      var after := piece[|kv[0]| + 1..];
      assert piece == kv[0] + ['='] + after;
      SplitAtSeparator(kv[0], '=', after);
      SplitHead(after, '=');
      Text(kv[1])
    else Null
  }

  /** A piece written as key=value parses back to that key and value; a piece without '=' has a null value. */
  lemma PairRoundTrip(key: string, value: string)
    requires '=' !in key && '=' !in value
    ensures KeyOf(key + ['='] + value) == key
    ensures ValueOf(key + ['='] + value) == Text(value)
    ensures KeyOf(key) == key && ValueOf(key) == Null
  {
    SplitAtSeparator(key, '=', value);
    SplitNoSeparator(value, '=');
    SplitNoSeparator(key, '=');
  }

  /** In a piece with a second '=', the text from that '=' on is dropped: `a=b=c` gives key `a` and value `b`. */
  lemma PairDropsTrailingText(key: string, value: string, rest: string)
    requires '=' !in key && '=' !in value
    ensures KeyOf(key + ['='] + value + ['='] + rest) == key
    ensures ValueOf(key + ['='] + value + ['='] + rest) == Text(value)
  {
    var piece := key + ['='] + value + ['='] + rest;
    assert piece == key + ['='] + (value + ['='] + rest);
    SplitAtSeparator(key, '=', value + ['='] + rest);
    SplitAtSeparator(value, '=', rest);
  }

  /** No later piece has the same key as piece i. */
  predicate LastWithKey(pieces: seq<string>, i: int)
    requires 0 <= i < |pieces|
  {
    forall j :: i < j < |pieces| ==> KeyOf(pieces[j]) != KeyOf(pieces[i])
  }

  /** The tags the parse loop builds from `pieces`, assigning `$tags[$key] = $value` piece by piece. */
  function TagsOf(pieces: seq<string>): (tags: Tags)
    ensures tags == map[] <==> pieces == []
    ensures pieces != [] ==> KeyOf(pieces[|pieces| - 1]) in tags
  {
    if pieces == [] then map[]
    else
      var last := pieces[|pieces| - 1];
      TagsOf(pieces[..|pieces| - 1])[KeyOf(last) := ValueOf(last)]
  }

  /** The parsed map has exactly the keys of the pieces. */
  lemma {:induction false} TagsOfKeys(pieces: seq<string>)
    ensures TagsOf(pieces).Keys == set p | p in pieces :: KeyOf(p)
  {
    if pieces != [] {
      var front := pieces[..|pieces| - 1];
      assert pieces == front + [pieces[|pieces| - 1]];
      TagsOfKeys(front);
    }
  }

  /** The keys are those of the pieces, and a key's value comes from the last piece with that key. */
  lemma {:induction false} TagsOfLastPieceWins(pieces: seq<string>)
    ensures TagsOf(pieces).Keys == set p | p in pieces :: KeyOf(p)
    ensures forall i :: 0 <= i < |pieces| && LastWithKey(pieces, i) ==>
      TagsOf(pieces)[KeyOf(pieces[i])] == ValueOf(pieces[i])
  {
    TagsOfKeys(pieces);
    if pieces != [] {
      var front := pieces[..|pieces| - 1];
      var last := pieces[|pieces| - 1];
      assert pieces == front + [last];
      TagsOfLastPieceWins(front);
      var tags := TagsOf(pieces);
      assert tags == TagsOf(front)[KeyOf(last) := ValueOf(last)];
      forall i | 0 <= i < |pieces| && LastWithKey(pieces, i)
        ensures tags[KeyOf(pieces[i])] == ValueOf(pieces[i])
      {
        if i < |front| {
          assert pieces[i] == front[i];
          assert KeyOf(last) != KeyOf(pieces[i]);
          assert LastWithKey(front, i);
        }
      }
    }
  }

  /** The tags taken from the JAEGER_TAGS server variable: none when it is unset or empty. */
  function EnvTagsOf(jaegerTags: Option<string>): (tags: Tags)
    ensures tags == map[] <==> jaegerTags.None? || jaegerTags.value == ""
  {
    if jaegerTags.None? || jaegerTags.value == "" then map[] else TagsOf(Split(jaegerTags.value, ','))
  }

  /** getEnvTags over the value of JAEGER_TAGS (None when the variable is not set). */
  method GetEnvTags(jaegerTags: Option<string>) returns (tags: Tags)
    ensures tags == EnvTagsOf(jaegerTags)
  {
    tags := map[];
    if jaegerTags.Some? && jaegerTags.value != "" {
      var envTags := Split(jaegerTags.value, ',');
      var i := 0;
      while i < |envTags|
        invariant 0 <= i <= |envTags|
        invariant tags == TagsOf(envTags[..i])
      {
        var kv := Split(envTags[i], '=');
        var key := kv[0];
        var value := if |kv| >= 2 then Text(kv[1]) else Null;
        assert envTags[..i + 1][..i] == envTags[..i];
        tags := tags[key := value];
        i := i + 1;
      }
      assert envTags[..|envTags|] == envTags;
    }
  }
}
