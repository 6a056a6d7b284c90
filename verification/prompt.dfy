/** Prompt assembly: the grounded prompt built from retrieved chunks, and
    the fallback prompt used when nothing was retrieved. Both are plain
    string functions. */
module Prompt {
  import opened Wrappers
  import opened PyValues
  import opened Retriever

  /** The fixed text before the context of the grounded prompt. */
  const RagPreamble: string :=
    "You are a helpful customer support assistant.\n"
    + "Answer the user's question using ONLY the information provided\n"
    + "in the context below.\n\nCONTEXT:\n"

  /** The fixed rules between the context and the question. */
  const RagRules: string :=
    "\n\nRULES:\n"
    + "1. Only use information from the context above\n"
    + "2. If the answer is not in the context, say\n"
    + "   \"I don't have information about that in my knowledge base.\"\n"
    + "3. Include citations in format [doc: filename#chunk_number]\n"
    + "4. Be concise and accurate\n"
    + "5. If multiple sources support your answer, cite all relevant ones\n"
    + "\nUSER QUESTION:\n"

  /** The fixed text after the question. */
  const RagClosing: string := "\n\nANSWER:"

  /** The fallback prompt up to the opening quote of the question. */
  const FallbackOpening: string := "You are a customer support assistant.\nThe user asked: \""

  /** The fallback prompt from the closing quote of the question on. */
  const FallbackClosing: string := "\"" + FallbackTail

  /** The fallback prompt after the closing quote. */
  const FallbackTail: string :=
    "\n\nUnfortunately, I don't have specific information about that\n"
    + "in my current knowledge base.\n\n"
    + "Please provide a helpful response that:\n"
    + "1. Acknowledges the question\n"
    + "2. Explains you don't have that specific information\n"
    + "3. Suggests they contact support directly for detailed help\n\n"
    + "Keep it professional and empathetic."

  /** Every chunk's metadata is a dict, so every `.get` on it succeeds. */
  predicate MetadataAreDicts(chunks: seq<Chunk>) {
    forall i :: 0 <= i < |chunks| ==> chunks[i].metadata.VDict?
  }

  /** The context block of one chunk, from its document name, chunk id and
      text. */
  function BlockText(doc: Value, id: Value, text: Value, render: Value -> string): string {
    "\n[Document: " + Show(doc, render) + ", Chunk: " + Show(id, render) + "]\n" + Show(text, render) + "\n"
  }

  /** The block of the chunk at position `i`: the document name defaults to
      "unknown" and the chunk id to `i`. */
  function Block(ch: Chunk, i: int, render: Value -> string): string
    requires ch.metadata.VDict?
  {
    var d := ch.metadata.fields;
    BlockText(GetOr(d, "filename", VStr("unknown")), GetOr(d, "chunk_index", VInt(i)), ch.text, render)
  }

  /** The blocks of `chunks`, the first at position `start`. */
  function Blocks(chunks: seq<Chunk>, start: int, render: Value -> string): (bs: seq<string>)
    requires MetadataAreDicts(chunks)
    ensures |bs| == |chunks|
    ensures forall i :: 0 <= i < |chunks| ==> bs[i] == Block(chunks[i], start + i, render)
  {
    seq(|chunks|, i requires 0 <= i < |chunks| => Block(chunks[i], start + i, render))
  }

  /** The strings of `parts` joined with no separator (`"".join`). */
  function Concat(parts: seq<string>): string
    decreases |parts|
  {
    if |parts| == 0 then "" else parts[0] + Concat(parts[1..])
  }

  /** Joining a concatenation is concatenating the joins. */
  lemma {:induction false} ConcatAppend(xs: seq<string>, ys: seq<string>)
    ensures Concat(xs + ys) == Concat(xs) + Concat(ys)
    decreases |xs|
  {
    if |xs| == 0 {
      assert xs + ys == ys;
      assert Concat(xs) + Concat(ys) == Concat(ys);
    } else {
      assert (xs + ys)[0] == xs[0];
      assert (xs + ys)[1..] == xs[1..] + ys;
      ConcatAppend(xs[1..], ys);
      assert xs[0] + (Concat(xs[1..]) + Concat(ys)) == (xs[0] + Concat(xs[1..])) + Concat(ys);
    }
  }

  /** The context text of `chunks`, whose first element sits at position
      `start`: the blocks concatenated in order. */
  function Context(chunks: seq<Chunk>, start: int, render: Value -> string): string
    requires MetadataAreDicts(chunks)
  {
    Concat(Blocks(chunks, start, render))
  }

  /** Concatenating chunk lists whose metadata are dicts keeps them dicts. */
  lemma DictsAppend(a: seq<Chunk>, b: seq<Chunk>)
    requires MetadataAreDicts(a) && MetadataAreDicts(b)
    ensures MetadataAreDicts(a + b)
  {
    forall i | 0 <= i < |a + b| ensures (a + b)[i].metadata.VDict? {
      if i < |a| { assert (a + b)[i] == a[i]; } else { assert (a + b)[i] == b[i - |a|]; }
    }
  }

  /** The blocks of a concatenation begin with the first list's blocks. */
  lemma BlocksPrefix(a: seq<Chunk>, b: seq<Chunk>, start: int, render: Value -> string)
    requires MetadataAreDicts(a) && MetadataAreDicts(a + b)
    ensures |a| <= |Blocks(a + b, start, render)|
    ensures Blocks(a + b, start, render)[..|a|] == Blocks(a, start, render)
  {
    var bab := Blocks(a + b, start, render);
    forall i | 0 <= i < |a| ensures bab[i] == Blocks(a, start, render)[i] {
      assert (a + b)[i] == a[i];
    }
  }

  /** The blocks of a concatenation end with the second list's blocks,
      numbered from where the first list stops. */
  lemma BlocksSuffix(a: seq<Chunk>, b: seq<Chunk>, start: int, render: Value -> string)
    requires MetadataAreDicts(b) && MetadataAreDicts(a + b)
    ensures |a| <= |Blocks(a + b, start, render)|
    ensures Blocks(a + b, start, render)[|a|..] == Blocks(b, start + |a|, render)
  {
    var bab := Blocks(a + b, start, render);
    forall i | |a| <= i < |bab| ensures bab[i] == Blocks(b, start + |a|, render)[i - |a|] {
      assert (a + b)[i] == b[i - |a|];
    }
  }

  /** The blocks of a concatenation: the second list's blocks are numbered
      from where the first list stops. */
  lemma BlocksAppend(a: seq<Chunk>, b: seq<Chunk>, start: int, render: Value -> string)
    requires MetadataAreDicts(a) && MetadataAreDicts(b) && MetadataAreDicts(a + b)
    ensures Blocks(a + b, start, render) == Blocks(a, start, render) + Blocks(b, start + |a|, render)
  {
    BlocksPrefix(a, b, start, render);
    BlocksSuffix(a, b, start, render);
    SplitAt(Blocks(a + b, start, render), |a|);
  }

  /** A sequence is its prefix followed by its suffix. */
  lemma SplitAt<T>(s: seq<T>, k: nat)
    requires k <= |s|
    ensures s == s[..k] + s[k..]
  {
  }

  /** The context of a concatenation is the two contexts concatenated, the
      second numbered from where the first stops: blocks appear in order and
      a chunk's default id is its position. */
  lemma ContextAppend(a: seq<Chunk>, b: seq<Chunk>, start: int, render: Value -> string)
    requires MetadataAreDicts(a) && MetadataAreDicts(b)
    ensures MetadataAreDicts(a + b)
    ensures Context(a + b, start, render) == Context(a, start, render) + Context(b, start + |a|, render)
  {
    DictsAppend(a, b);
    BlocksAppend(a, b, start, render);
    ConcatAppend(Blocks(a, start, render), Blocks(b, start + |a|, render));
  }

  /** The context holds one block per chunk: a single chunk's context is its
      block. */
  lemma ContextOfOne(ch: Chunk, i: int, render: Value -> string)
    requires ch.metadata.VDict?
    ensures Context([ch], i, render) == Block(ch, i, render)
  {
    var bs := Blocks([ch], i, render);
    assert bs[1..] == [];
    assert Concat(bs) == bs[0] + Concat(bs[1..]);
  }

  /** A block's header falls back to "unknown" for the document and to the
      chunk's position for the chunk id. */
  lemma BlockDefaults(ch: Chunk, i: int, render: Value -> string)
    requires ch.metadata.VDict? && "filename" !in ch.metadata.fields && "chunk_index" !in ch.metadata.fields
    ensures Block(ch, i, render)
      == "\n[Document: unknown, Chunk: " + IntToString(i) + "]\n" + Show(ch.text, render) + "\n"
  {
  }

  /** Slicing a five-part concatenation gives back its parts. */
  lemma FiveParts(a: string, b: string, c: string, d: string, e: string)
    ensures var p := a + b + c + d + e;
      && |p| == |a| + |b| + |c| + |d| + |e|
      && p[..|a|] == a
      && p[|a|..|a| + |b|] == b
      && p[|a| + |b|..|p| - |e| - |d|] == c
      && p[|p| - |e| - |d|..|p| - |e|] == d
      && p[|p| - |e|..] == e
  {
  }

  /** `build_rag_prompt`: preamble, context, rules, the question verbatim
      and the closing line; `None` (AttributeError) when some chunk's
      metadata is not a dict. */
  function BuildRagPrompt(query: string, chunks: seq<Chunk>, render: Value -> string): (p: Option<string>)
    ensures p.Some? <==> MetadataAreDicts(chunks)
    ensures p.Some? ==>
      && |p.value| == |RagPreamble| + |Context(chunks, 0, render)| + |RagRules| + |query| + |RagClosing|
      && p.value[..|RagPreamble|] == RagPreamble
      && p.value[|RagPreamble|..|RagPreamble| + |Context(chunks, 0, render)|] == Context(chunks, 0, render)
      && p.value[|RagPreamble| + |Context(chunks, 0, render)|..|p.value| - |RagClosing| - |query|] == RagRules
      && p.value[|p.value| - |RagClosing| - |query|..|p.value| - |RagClosing|] == query
      && p.value[|p.value| - |RagClosing|..] == RagClosing
  {
    if MetadataAreDicts(chunks) then
      var ctx := Context(chunks, 0, render);
      FiveParts(RagPreamble, ctx, RagRules, query, RagClosing);
      Some(RagPreamble + ctx + RagRules + query + RagClosing)
    else
      None
  }

  /** With no chunks the context is empty, but the rules and the question
      are still there. */
  lemma RagPromptNoChunks(query: string, render: Value -> string)
    ensures BuildRagPrompt(query, [], render) == Some(RagPreamble + RagRules + query + RagClosing)
  {
    assert RagPreamble + "" == RagPreamble;
  }

  /** `build_fallback_prompt`: the question quoted verbatim, with no
      escaping. */
  function BuildFallbackPrompt(query: string): (p: string)
    ensures |p| == |FallbackOpening| + |query| + |FallbackClosing|
    ensures p[..|FallbackOpening|] == FallbackOpening
    ensures p[|FallbackOpening| - 1] == '"' && p[|FallbackOpening| + |query|] == '"'
    ensures p[|FallbackOpening|..|FallbackOpening| + |query|] == query
    ensures p[|FallbackOpening| + |query|..] == FallbackClosing
  {
    var p := FallbackOpening + query + FallbackClosing;
    assert p[..|FallbackOpening|] == FallbackOpening;
    assert p[|FallbackOpening|..|FallbackOpening| + |query|] == query;
    assert p[|FallbackOpening| + |query|..] == FallbackClosing;
    p
  }

  /** Distinct questions give distinct fallback prompts. */
  lemma FallbackPromptInjective(q1: string, q2: string)
    requires BuildFallbackPrompt(q1) == BuildFallbackPrompt(q2)
    ensures q1 == q2
  {
    var p := BuildFallbackPrompt(q1);
    assert |q1| == |q2|;
    assert q1 == p[|FallbackOpening|..|FallbackOpening| + |q1|];
  }
}
