/** RDF graphs as sets of triples, and the memoised loaders (functools.lru_cache) that parse them. */
module Rdf {
  import opened Wrappers

  datatype Term = Iri(iri: string) | Literal(lexical: string) | Blank(id: string)

  datatype Triple = Triple(s: Term, p: string, o: Term)

  type Graph = set<Triple>

  /** Every subject of the graph. */
  function Subjects(g: Graph): set<Term>
  {
    set t | t in g :: t.s
  }

  /** The objects of the triples with predicate `p`. */
  function ObjectsOf(g: Graph, p: string): (r: set<Term>)
    ensures forall o :: o in r <==> exists t :: t in g && t.p == p && t.o == o
  {
    set t | t in g && t.p == p :: t.o
  }

  /** A loader memoised by key: a key that loaded once keeps its graph, a load that raised is
      not remembered (lru_cache caches only returned values). */
  class Memo {
    var table: map<string, Graph>

    constructor()
      ensures table == map[]
    {
      table := map[];
    }

    method Get(key: string, load: string -> Result<Graph>) returns (r: Result<Graph>)
      modifies this
      ensures key in old(table) ==> r == Ok(old(table)[key]) && table == old(table)
      ensures key !in old(table) ==> r == load(key)
      ensures key !in old(table) && r.Ok? ==> table == old(table)[key := r.value]
      ensures key !in old(table) && r.Raise? ==> table == old(table)
      ensures forall k :: k in old(table) ==> k in table && table[k] == old(table)[k]
    {
      if key in table {
        r := Ok(table[key]);
      } else {
        r := load(key);
        if r.Ok? {
          table := table[key := r.value];
        }
      }
    }
  }
}
