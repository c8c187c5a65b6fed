/**
 * The context string of `getCoroSpecificLogStr` (src/logging/spawn.cpp):
 * the labels of a context stack joined with one space
 * (`boost::algorithm::join(v, " ")`), and the splitting it can be undone by.
 */
module LogString {

  /** The labels of `labels`, outermost first, separated by single spaces:
      the string starts with the outermost label. */
  function Join(labels: seq<string>): (text: string)
    ensures |labels| == 0 ==> text == ""
    ensures |labels| > 0 ==> labels[0] <= text
  {
    if |labels| == 0 then ""
    else if |labels| == 1 then labels[0]
    else labels[0] + " " + Join(labels[1..])
  }

  /** The context string ends with the innermost label. */
  lemma {:induction false} JoinEndsWithLast(labels: seq<string>)
    requires |labels| > 0
    ensures var text := Join(labels); var last := labels[|labels| - 1];
            |last| <= |text| && text[|text| - |last|..] == last
  {
    if |labels| > 1 {
      JoinEndsWithLast(labels[1..]);
      var rest := Join(labels[1..]);
      var text := Join(labels);
      var last := labels[|labels| - 1];
      assert text == labels[0] + " " + rest;
      assert text[|text| - |last|..] == rest[|rest| - |last|..];
    }
  }

  /** The pieces of `text` between spaces; there is always at least one piece. */
  function Split(text: string): (pieces: seq<string>)
    ensures |pieces| >= 1
  {
    if |text| == 0 then [""]
    else if text[0] == ' ' then [""] + Split(text[1..])
    else
      var rest := Split(text[1..]);
      [[text[0]] + rest[0]] + rest[1..]
  }

  /** No label of `labels` contains the separator. */
  predicate SpaceFree(labels: seq<string>)
  {
    forall i :: 0 <= i < |labels| ==> ' ' !in labels[i]
  }

  /** An empty stack gives the empty string, one label gives that label, and two give them with one space between. */
  lemma JoinSmall(a: string, b: string)
    ensures Join([]) == ""
    ensures Join([a]) == a
    ensures Join([a, b]) == a + " " + b
  {
  }

  /** Pushing a label `top` onto a non-empty stack appends one space and `top` to its string. */
  lemma {:induction false} JoinPush(labels: seq<string>, top: string)
    requires |labels| > 0
    ensures Join(labels + [top]) == Join(labels) + " " + top
  {
    if |labels| == 1 {
      assert labels + [top] == [labels[0], top];
    } else {
      assert (labels + [top])[1..] == labels[1..] + [top];
      JoinPush(labels[1..], top);
    }
  }

  /** Splitting a text without spaces gives that text back as the only piece. */
  lemma {:induction false} SplitSpaceFree(text: string)
    requires ' ' !in text
    ensures Split(text) == [text]
  {
    if |text| > 0 {
      assert ' ' !in text[1..];
      SplitSpaceFree(text[1..]);
      assert [text[0]] + text[1..] == text;
    }
  }

  /** A space-free first piece is split off at the first space. */
  lemma {:induction false} SplitAtFirstSpace(head: string, tail: string)
    requires ' ' !in head
    ensures Split(head + " " + tail) == [head] + Split(tail)
  {
    if |head| == 0 {
      assert head + " " + tail == [' '] + tail;
      assert (head + " " + tail)[1..] == tail;
    } else {
      var text := head + " " + tail;
      assert text[0] == head[0];
      assert text[1..] == head[1..] + " " + tail;
      assert ' ' !in head[1..];
      SplitAtFirstSpace(head[1..], tail);
      assert [head[0]] + head[1..] == head;
    }
  }

  /** Splitting the context string at spaces gives back the stack, provided
      the stack is non-empty and no label contains a space: the join loses
      nothing else.  (`[]` and `[""]` both give the empty string.) */
  lemma {:induction false} SplitJoin(labels: seq<string>)
    requires |labels| > 0 && SpaceFree(labels)
    ensures Split(Join(labels)) == labels
  {
    assert ' ' !in labels[0];
    if |labels| == 1 {
      SplitSpaceFree(labels[0]);
    } else {
      SplitAtFirstSpace(labels[0], Join(labels[1..]));
      SplitJoin(labels[1..]);
      assert [labels[0]] + labels[1..] == labels;
    }
  }

  /** Two non-empty space-free stacks with the same context string are equal. */
  lemma JoinInjective(a: seq<string>, b: seq<string>)
    requires |a| > 0 && |b| > 0 && SpaceFree(a) && SpaceFree(b)
    requires Join(a) == Join(b)
    ensures a == b
  {
    SplitJoin(a);
    SplitJoin(b);
  }
}
