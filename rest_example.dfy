/** The package's documented example: a UserList resource that only
    implements Get and returns its repository's users. */
module RestExample {
  import opened Wrappers
  import Json
  import opened Rest

  /** A User struct, whose one exported field is Name. */
  function User(name: string): Json.Value {
    Json.Object([Json.Field("Name", Json.Str(name))])
  }

  /** UserRepository.AllUsers: the repository's users, in order. */
  function AllUsers(names: seq<string>): seq<Json.Value> {
    if names == [] then [] else [User(names[0])] + AllUsers(names[1..])
  }

  /** A UserList over a repository holding users with these names: it
      implements getter only, and Get answers 200 with every user. */
  function UserList(names: seq<string>): Resource {
    Resource(Some(values => Reply(200, Json.Array(AllUsers(names)))), None, None, None)
  }

  /** The body the documented run prints, without the trailing newline. */
  const UsersJson: string := "[{\"Name\":\"joe\"},{\"Name\":\"sally\"}]"

  /** What a User's encoding starts with, up to the name's first character. */
  const NameKey: string := "{\"Name\":\""

  lemma QuotePlain(s: string)
    requires forall i :: 0 <= i < |s| ==> Json.Plain(s[i])
    ensures Json.Quote(s) == "\"" + s + "\""
  {
    Json.EscapeKeepsPlain(s);
  }

  lemma SingleField(name: string, v: Json.Value, t: string)
    requires Json.Marshal(v) == Some(t)
    ensures Json.Marshal(Json.Object([Json.Field(name, v)])) == Some("{" + Json.Quote(name) + ":" + t + "}")
  {
    var fields := [Json.Field(name, v)];
    assert fields[1..] == [];
    assert Json.MarshalFields(fields) == Some(Json.Quote(name) + ":" + t + "");
    assert Json.Quote(name) + ":" + t + "" == Json.Quote(name) + ":" + t;
    assert Json.Marshal(Json.Object(fields)) == Some("{" + (Json.Quote(name) + ":" + t) + "}");
    assert "{" + (Json.Quote(name) + ":" + t) + "}" == "{" + Json.Quote(name) + ":" + t + "}";
  }

  lemma TwoItems(a: Json.Value, b: Json.Value, ta: string, tb: string)
    requires Json.Marshal(a) == Some(ta) && Json.Marshal(b) == Some(tb)
    ensures Json.Marshal(Json.Array([a, b])) == Some("[" + ta + "," + tb + "]")
  {
    assert [b][1..] == [];
    assert Json.MarshalItems([b]) == Some(tb + "");
    assert tb + "" == tb;
    assert [a, b][1..] == [b];
    assert Json.MarshalItems([a, b]) == Some(ta + ("," + tb));
    assert "[" + (ta + ("," + tb)) + "]" == "[" + ta + "," + tb + "]";
  }

  /** A user whose name needs no escaping is encoded as {"Name":"<name>"}. */
  lemma UserEncoding(name: string)
    requires forall i :: 0 <= i < |name| ==> Json.Plain(name[i])
    ensures Json.Marshal(User(name)) == Some(NameKey + name + "\"}")
  {
    assert "{" + "\"Name\"" + ":" + "\"" == NameKey;
    var q := Json.Quote(name);
    assert q == "\"" + name + "\"" by { QuotePlain(name); }
    assert Json.Quote("Name") == "\"Name\"" by { QuotePlain("Name"); }
    assert Json.Marshal(User(name)) == Some("{" + "\"Name\"" + ":" + q + "}") by {
      SingleField("Name", Json.Str(name), q);
    }
    assert "{" + "\"Name\"" + ":" + q + "}" == NameKey + name + "\"}" by {
      assert "{" + "\"Name\"" + ":" + q + "}" == ("{" + "\"Name\"" + ":" + "\"") + name + ("\"" + "}");
    }
  }

  /** Two users whose names need no escaping are encoded as a JSON array
      of two objects, followed by a newline. */
  lemma TwoUsersEncoding(a: string, b: string)
    requires forall i :: 0 <= i < |a| ==> Json.Plain(a[i])
    requires forall i :: 0 <= i < |b| ==> Json.Plain(b[i])
    ensures Json.Encode(Json.Array([User(a), User(b)])) ==
      Some("[" + NameKey + a + "\"}," + NameKey + b + "\"}]\n")
  {
    var ta := NameKey + a + "\"}";
    var tb := NameKey + b + "\"}";
    UserEncoding(a);
    UserEncoding(b);
    assert Json.Marshal(Json.Array([User(a), User(b)])) == Some("[" + ta + "," + tb + "]") by {
      TwoItems(User(a), User(b), ta, tb);
    }
    assert "[" + ta + "," + tb + "]" + "\n" == "[" + NameKey + a + "\"}," + NameKey + b + "\"}]\n" by {
      assert "\"}" + "," == "\"},";
      assert "\"}" + "]" + "\n" == "\"}]\n";
    }
  }

  /** GET on a UserList of two users answers 200 with the two users as a
      JSON array, followed by the newline Encoder.Encode appends. */
  lemma TwoUsersGet(a: string, b: string, values: Values)
    requires forall i :: 0 <= i < |a| ==> Json.Plain(a[i])
    requires forall i :: 0 <= i < |b| ==> Json.Plain(b[i])
    ensures Dispatch(UserList([a, b]), Json.Encode, GET, values) ==
      Transcript([200], "[" + NameKey + a + "\"}," + NameKey + b + "\"}]\n", [Call(Get, values)])
  {
    assert [a, b][1..] == [b] && [b][1..] == [];
    assert AllUsers([b]) == [User(b)];
    assert AllUsers([a, b]) == [User(a), User(b)];
    TwoUsersEncoding(a, b);
  }

  /** The documented run: GET answers 200 and [{"Name":"joe"},{"Name":"sally"}]. */
  lemma ExampleGet(values: Values)
    ensures Dispatch(UserList(["joe", "sally"]), Json.Encode, GET, values) ==
      Transcript([200], UsersJson + "\n", [Call(Get, values)])
  {
    assert "[" + NameKey + "joe" + "\"}," + NameKey + "sally" + "\"}]\n" == UsersJson + "\n";
    assert forall i :: 0 <= i < |"joe"| ==> Json.Plain("joe"[i]);
    assert forall i :: 0 <= i < |"sally"| ==> Json.Plain("sally"[i]);
    TwoUsersGet("joe", "sally", values);
  }

  /** The example resource has no Post, so POST is answered with 405 alone. */
  lemma ExamplePost(values: Values)
    ensures Dispatch(UserList(["joe", "sally"]), Json.Encode, POST, values) == Transcript([405], "", [])
  {
  }

  /** Serving GET /users with no parameters, as the example does. */
  method ServeUsers() returns (status: int, body: string)
    ensures status == 200 && body == UsersJson + "\n"
  {
    var rw := new ResponseWriter();
    HandleRequest(UserList(["joe", "sally"]), Json.Encode, rw, GET, map[]);
    ExampleGet(map[]);
    status, body := rw.headers[0], rw.body;
  }
}
