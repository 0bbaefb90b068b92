/** URL fragments: the private `Entity` chain of Clutch's FluentClient and its rendering.
    An `Entity` is one node of a singly-linked list of optional values; the ghost field
    `segs` is the list of values from this node to the tail, and `Render` says what
    `ToString` produces from that list. */
module Fragments {

  datatype Option<+T> = None | Some(value: T)

  /** The collection name a `PluralEntity<T>` carries: the type's name followed by a
      literal suffix, "s" unless another is given. No grammatical pluralisation. */
  function PluralName(typeName: string, postfix: string := "s"): (r: string)
    ensures |r| == |typeName| + |postfix|
    ensures r[..|typeName|] == typeName && r[|typeName|..] == postfix
  {
    typeName + postfix
  }

  /** `PluralEntity<Room>` names the collection "Rooms"; `Person` gives "Persons" verbatim. */
  lemma PluralNameExamples()
    ensures PluralName("Room") == "Rooms"
    ensures PluralName("User") == "Users"
    ensures PluralName("Person") == "Persons"
  {
  }

  /** What `Entity.ToString` renders from the values of a chain, head first.
      None stands for the NullReferenceException that `_value.ToString()` raises
      when the terminal node holds null. */
  function Render(s: seq<Option<string>>): Option<string>
    requires |s| > 0
  {
    if |s| == 1 then s[0]
    else match s[0]
      case None => Render(s[1..])
      case Some(v) =>
        match Render(s[1..])
        case None => None
        case Some(rest) => Some(v + "/" + rest)
  }

  /** The values that are present, in order: the nodes a rendering does not skip. */
  function Present(s: seq<Option<string>>): (r: seq<string>)
    ensures |r| <= |s|
    ensures forall v :: v in r <==> Some(v) in s
    ensures |s| > 0 && s[|s| - 1].Some? ==> |r| > 0 && r[|r| - 1] == s[|s| - 1].value
    ensures |s| > 0 && s[0].Some? ==> |r| > 0 && r[0] == s[0].value
  {
    if s == [] then []
    else
      var rest := Present(s[1..]);
      assert forall o :: o in s <==> o == s[0] || o in s[1..];
      if s[0].Some? then [s[0].value] + rest else rest
  }

  /** The values joined with "/" between neighbours. */
  function Join(xs: seq<string>): string
  {
    if |xs| == 0 then ""
    else if |xs| == 1 then xs[0]
    else xs[0] + "/" + Join(xs[1..])
  }

  lemma {:induction false} PresentAppend(s: seq<Option<string>>, t: seq<Option<string>>)
    ensures Present(s + t) == Present(s) + Present(t)
  {
    if s != [] {
      assert (s + t)[1..] == s[1..] + t;
      PresentAppend(s[1..], t);
    } else {
      assert s + t == t;
    }
  }

  lemma {:induction false} JoinAppend(a: seq<string>, b: seq<string>)
    requires |a| > 0 && |b| > 0
    ensures Join(a + b) == Join(a) + "/" + Join(b)
  {
    if |a| > 1 {
      assert (a + b)[1..] == a[1..] + b;
      JoinAppend(a[1..], b);
    } else {
      assert (a + b)[1..] == b;
    }
  }

  lemma {:induction false} JoinStartsWithFirst(xs: seq<string>)
    requires |xs| > 0
    ensures xs[0] <= Join(xs)
  {
  }

  /** Rendering succeeds exactly when the terminal value is present, and then it is the
      present values joined by "/": null values before the tail are skipped. */
  lemma {:induction false} RenderIsJoinOfPresent(s: seq<Option<string>>)
    requires |s| > 0
    ensures Render(s).Some? <==> s[|s| - 1].Some?
    ensures Render(s).Some? ==> Render(s).value == Join(Present(s))
  {
    if |s| > 1 {
      var tail := s[1..];
      RenderIsJoinOfPresent(tail);
      assert tail[|tail| - 1] == s[|s| - 1];
      assert s == [s[0]] + tail;
      PresentAppend([s[0]], tail);
      if s[0].Some? {
        assert Present([s[0]]) == [s[0].value] by {
          assert [s[0]][1..] == [];
        }
        if Render(tail).Some? {
          assert Join(Present(s)) == s[0].value + "/" + Join(Present(tail)) by {
            JoinAppend([s[0].value], Present(tail));
          }
        }
      } else {
        assert Present([s[0]]) == [] by {
          assert [s[0]][1..] == [];
        }
      }
    } else {
      assert Present(s) == Present(s[1..]) + (if s[0].Some? then [s[0].value] else []) by {
        assert s[1..] == [];
      }
    }
  }

  /** A freshly built `Entity()` holds one null value and cannot be rendered. */
  lemma NullTerminalFails(s: seq<Option<string>>)
    requires |s| > 0 && s[|s| - 1].None?
    ensures Render(s).None?
  {
    RenderIsJoinOfPresent(s);
  }

  /** Appending one node at the tail of a renderable chain: a present value extends the
      path by "/" and the value, a null one makes the chain unrenderable. */
  lemma RenderAppend(s: seq<Option<string>>, x: Option<string>)
    requires |s| > 0 && Render(s).Some?
    ensures x.Some? ==> Render(s + [x]) == Some(Render(s).value + "/" + x.value)
    ensures x.None? ==> Render(s + [x]) == None
  {
    RenderIsJoinOfPresent(s);
    RenderIsJoinOfPresent(s + [x]);
    PresentAppend(s, [x]);
    if x.Some? {
      assert Present([x]) == [x.value] by {
        assert [x][1..] == [];
      }
      JoinAppend(Present(s), [x.value]);
    }
  }

  /** A rendered path begins with the first present value: with a null root it begins
      with the first collection name, never with a separator. */
  lemma RenderStartsWithFirstPresent(s: seq<Option<string>>)
    requires |s| > 0 && Render(s).Some?
    ensures |Present(s)| > 0 && Present(s)[0] <= Render(s).value
  {
    RenderIsJoinOfPresent(s);
    JoinStartsWithFirst(Present(s));
  }

  /** One URL fragment. `value` is the node's own (possibly null) value, `next` the link
      `_chainLink`. */
  class Entity {
    const value: Option<string>
    var next: Entity?
    ghost var segs: seq<Option<string>>
    ghost var Repr: set<object>

    ghost predicate Valid()
      reads this, Repr
      decreases Repr
      ensures Valid() ==> this in Repr && |segs| > 0 && segs[0] == value
    {
      this in Repr &&
      (next == null ==> segs == [value]) &&
      (next != null ==>
        next in Repr && next.Repr <= Repr && this !in next.Repr &&
        next.Valid() && segs == [value] + next.segs)
    }

    /** `new Entity(val)`: a single node with no link. */
    constructor (val: Option<string>)
      ensures Valid() && fresh(Repr) && Repr == {this}
      ensures value == val && next == null && segs == [val]
    {
      value := val;
      next := null;
      segs := [val];
      Repr := {this};
    }

    /** `new PluralEntity<T>(postfix)`, with the type's name given as `typeName`. */
    constructor Plural(typeName: string, postfix: string := "s")
      ensures Valid() && fresh(Repr) && Repr == {this}
      ensures value == Some(PluralName(typeName, postfix)) && next == null
      ensures segs == [Some(PluralName(typeName, postfix))]
    {
      value := Some(typeName + postfix);
      next := null;
      segs := [value];
      Repr := {this};
    }

    /** `ToString`: the node's value alone at the tail, the link's rendering alone when
        the value is null, otherwise "value/link". None when the tail value is null. */
    function ToString(): (r: Option<string>)
      requires Valid()
      reads Repr
      decreases Repr
      ensures r == Render(segs)
    {
      if next == null then value
      else if value.None? then next.ToString()
      else match next.ToString()
        case None => None
        case Some(rest) => Some(value.value + "/" + rest)
    }

    /** `Chain(link)` for a link that is already an `Entity`: walks `_chainLink` to the
        tail and attaches `link` there; the receiver is returned, so calls compose in
        order. Nothing is removed: the old values stay a prefix. */
    method Chain(link: Entity) returns (r: Entity)
      requires Valid() && link.Valid() && Repr !! link.Repr
      modifies Repr
      decreases Repr
      ensures r == this && Valid()
      ensures segs == old(segs) + old(link.segs)
      ensures Repr == old(Repr) + old(link.Repr)
    {
      if next != null {
        var _ := next.Chain(link);
        segs := [value] + next.segs;
      } else {
        next := link;
        segs := [value] + link.segs;
      }
      Repr := Repr + link.Repr;
      r := this;
    }

    /** `Chain(link)` for any other value, null included: the value is wrapped in a new
        node, which becomes the tail. */
    method ChainValue(link: Option<string>) returns (r: Entity)
      requires Valid()
      modifies Repr
      ensures r == this && Valid() && fresh(Repr - old(Repr))
      ensures segs == old(segs) + [link]
    {
      var wrapped := new Entity(link);
      r := Chain(wrapped);
    }
  }
}
