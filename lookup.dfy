/** What VECTOR_LOOKUP returns: each branch keeps at most three hits, all above the
    threshold; the chunk branch returns its hits, and the message branch returns ids
    that do not depend on which message was hit. */
module Lookup {
  import opened Payload
  import opened Seqs
  import opened Graph

  /** One chunk row per hit at most. */
  lemma {:induction false} ChunkImageSize(g: Graph, s: seq<Hit>)
    ensures |set h | h in s :: Row(Some(h.id), ContentOf(g, ChunkNode(h.id)))| <= |s|
  {
    if |s| > 0 {
      var init := s[..|s| - 1];
      var last := s[|s| - 1];
      ChunkImageSize(g, init);
      assert (set h | h in s :: Row(Some(h.id), ContentOf(g, ChunkNode(h.id))))
          == (set h | h in init :: Row(Some(h.id), ContentOf(g, ChunkNode(h.id)))) + {Row(Some(last.id), ContentOf(g, ChunkNode(last.id)))} by {
        assert s == init + [last];
      }
    }
  }

  /** The chunk branch returns the id and content of each kept hit, so at most three
      rows, each for a hit whose score is above the threshold. */
  lemma ChunkRowsAreHits(g: Graph, ranking: seq<Hit>)
    ensures |ChunkRows(g, ranking)| <= TopK
    ensures forall row :: row in ChunkRows(g, ranking) ==>
              exists h :: h in KeptHits(ranking) && h.score > Threshold && row == Row(Some(h.id), ContentOf(g, ChunkNode(h.id)))
  {
    ChunkImageSize(g, KeptHits(ranking));
  }

  /** Every node the message branch expands to has content, hence an id. */
  lemma ExpansionHasIds(g: Graph)
    ensures forall n :: n in Expansion(g) ==> ContentOf(g, n).Some? && IdOf(n).Some?
  {
  }

  /** Under the store invariant every node the message branch expands to is a Chunk:
      Sources have no content, and a FIRST edge from a Source or a Chunk ends at a Chunk. */
  lemma ExpansionIsChunks(g: Graph)
    requires Valid(g)
    ensures forall n :: n in Expansion(g) ==> n.ChunkNode?
  {
    forall r, f | r in g.rels && f in g.rels && r.kind == Sourced && IsDocument(r.to) && f.kind == First && f.from == r.to
      ensures f.to.ChunkNode?
    {
      assert FirstShape(f);
    }
  }

  /** The message branch is not anchored to the hit: each kept hit is paired with every
      expansion node of the whole graph, whichever message those were reached from. */
  lemma MessageRowsUnanchored(g: Graph, ranking: seq<Hit>, h: Hit, n: NodeRef)
    requires h in KeptHits(ranking) && n in Expansion(g)
    ensures Row(IdOf(n), ContentOf(g, MessageNode(h.id))) in MessageRows(g, ranking)
  {
  }

  /** Each row of the message branch carries the content of a kept hit, and an id that is
      null exactly when the graph has no expansion node at all. */
  lemma MessageRowsShape(g: Graph, ranking: seq<Hit>, row: Row)
    requires row in MessageRows(g, ranking)
    ensures exists h :: h in KeptHits(ranking) && row.content == ContentOf(g, MessageNode(h.id))
    ensures row.id.None? <==> Expansion(g) == {}
    ensures row.id.Some? ==> exists n :: n in Expansion(g) && row.id == IdOf(n)
  {
    ExpansionHasIds(g);
  }

  /** The ids of the message branch are the same for any two searches that keep a hit:
      they are a function of the graph alone. */
  lemma MessageIdsIgnoreHits(g: Graph, ra: seq<Hit>, rb: seq<Hit>)
    requires |KeptHits(ra)| > 0 && |KeptHits(rb)| > 0
    ensures (set row | row in MessageRows(g, ra) :: row.id) == (set row | row in MessageRows(g, rb) :: row.id)
  {
    var ha, hb := KeptHits(ra)[0], KeptHits(rb)[0];
    forall row | row in MessageRows(g, ra)
      ensures row.id in (set row | row in MessageRows(g, rb) :: row.id)
    {
      MessageRowsShape(g, ra, row);
      if row.id.Some? {
        var n :| n in Expansion(g) && row.id == IdOf(n);
        MessageRowsUnanchored(g, rb, hb, n);
      } else {
        assert Row(None, ContentOf(g, MessageNode(hb.id))) in MessageRows(g, rb);
      }
    }
    forall row | row in MessageRows(g, rb)
      ensures row.id in (set row | row in MessageRows(g, ra) :: row.id)
    {
      MessageRowsShape(g, rb, row);
      if row.id.Some? {
        var n :| n in Expansion(g) && row.id == IdOf(n);
        MessageRowsUnanchored(g, ra, ha, n);
      } else {
        assert Row(None, ContentOf(g, MessageNode(ha.id))) in MessageRows(g, ra);
      }
    }
  }
}
