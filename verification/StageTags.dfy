/**
 Tags of the settlements a stage holds.
 */
module StageTags {
  import opened Deliveries
  import opened Lanes

  lemma {:induction false} WorkTagsFind(ws: seq<Work>, t: nat) returns (w: Work)
    requires t in WorkTags(ws)
    ensures w in ws && w.token.tag == t
  {
    var n := |ws| - 1;
    if ws[n].token.tag == t {
      w := ws[n];
    } else {
      w := WorkTagsFind(ws[..n], t);
    }
  }

  lemma {:induction false} WorkTagsHas(ws: seq<Work>, w: Work)
    requires w in ws
    ensures w.token.tag in WorkTags(ws)
  {
    var n := |ws| - 1;
    if ws[n] != w {
      assert w in ws[..n];
      WorkTagsHas(ws[..n], w);
    }
  }

  lemma WorkTagsAppend(ws: seq<Work>, w: Work)
    ensures WorkTags(ws + [w]) == WorkTags(ws) + {w.token.tag}
  {
    assert (ws + [w])[..|ws|] == ws;
  }

  lemma {:induction false} WorkTagsConcat(a: seq<Work>, b: seq<Work>)
    ensures WorkTags(a + b) == WorkTags(a) + WorkTags(b)
  {
    if b == [] {
      assert a + b == a;
    } else {
      var n := |b| - 1;
      assert (a + b)[..|a| + n] == a + b[..n];
      WorkTagsConcat(a, b[..n]);
    }
  }

  lemma {:induction false} ThroughTagsFind(ths: seq<Through>, t: nat) returns (th: Through, a: Token)
    requires t in ThroughTags(ths)
    ensures th in ths && a in th.affected && a.tag == t
  {
    var n := |ths| - 1;
    if t in TokenTags(ths[n].affected) {
      th := ths[n];
      a := TokenTagsFind(th.affected, t);
    } else {
      th, a := ThroughTagsFind(ths[..n], t);
    }
  }

  lemma {:induction false} ThroughTagsHas(ths: seq<Through>, th: Through, a: Token)
    requires th in ths && a in th.affected
    ensures a.tag in ThroughTags(ths)
  {
    var n := |ths| - 1;
    if ths[n] == th {
      TokenTagsHas(th.affected, a);
    } else {
      assert th in ths[..n];
      ThroughTagsHas(ths[..n], th, a);
    }
  }

  lemma {:induction false} ThroughTagsConcat(a: seq<Through>, b: seq<Through>)
    ensures ThroughTags(a + b) == ThroughTags(a) + ThroughTags(b)
  {
    if b == [] {
      assert a + b == a;
    } else {
      var n := |b| - 1;
      assert (a + b)[..|a| + n] == a + b[..n];
      ThroughTagsConcat(a, b[..n]);
    }
  }
}
