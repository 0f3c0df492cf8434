/** The JSON-LD identity record of the schema module (app.py:370-382): a dictionary with the
    schema.org context, the entity type, name, url and description (each with a placeholder when left
    empty), the `sameAs` list of the social profiles that were filled in, and `jobTitle` for a person
    or `industry` for an organization. */
module Schema {
  import opened Text
  import opened Manual

  /** The two choices of the "Type" select box. */
  datatype EntityType = Person | Organization

  /** The values the record holds: a string or a list of strings. */
  datatype Json = JString(text: string) | JArray(items: seq<string>)

  function TypeName(entity: EntityType): string
  {
    match entity
    case Person => "Person"
    case Organization => "Organization"
  }

  /** The key under which the "Job Title / Industry" box is stored. */
  function RoleKey(entity: EntityType): (key: string)
    ensures key == "jobTitle" || key == "industry"
  {
    if entity == Person then "jobTitle" else "industry"
  }

  /** The keys every record has, whatever was entered. */
  const FixedKeys: set<string> := {"@context", "@type", "name", "url", "description", "sameAs"}

  /** `value if value else placeholder`. */
  function OrPlaceholder(value: string, placeholder: string): (r: string)
    ensures value != [] ==> r == value
    ensures value == [] ==> r == placeholder
  {
    if value != [] then value else placeholder
  }

  /** A profile box is truthy when it is not empty. */
  predicate IsFilled(p: string)
  {
    p != []
  }

  /** The profiles that were filled in, in form order. */
  function FilledIn(profiles: seq<string>): seq<string>
  {
    Filter(profiles, IsFilled)
  }

  /** A profile is listed exactly when it was filled in. */
  lemma FilledInExactly(profiles: seq<string>, p: string)
    ensures p in FilledIn(profiles) <==> p in profiles && p != []
  {
    if p in profiles && p != [] {
      FilterKeepsEvery(profiles, IsFilled, p);
    }
  }

  /** The dictionary literal of app.py:370-377: every fixed key, with an empty `sameAs` list. */
  function BaseRecord(entity: EntityType, name: string, website: string, bio: string): (record: map<string, Json>)
    ensures record.Keys == FixedKeys
    ensures record["@context"] == JString("https://schema.org")
    ensures record["@type"] == JString(TypeName(entity))
    ensures record["name"] == JString(OrPlaceholder(name, "[Name]"))
    ensures record["url"] == JString(OrPlaceholder(website, "[Website URL]"))
    ensures record["description"] == JString(OrPlaceholder(bio, "[Bio]"))
    ensures record["sameAs"] == JArray([])
  {
    map[
      "@context" := JString("https://schema.org"),
      "@type" := JString(TypeName(entity)),
      "name" := JString(if name != [] then name else "[Name]"),
      "url" := JString(if website != [] then website else "[Website URL]"),
      "description" := JString(if bio != [] then bio else "[Bio]"),
      "sameAs" := JArray([])
    ]
  }

  /** `if profile: schema_data["sameAs"].append(profile)`: the list grows by the profile when it was
      filled in, and nothing else in the record changes. */
  method AddProfile(schema: map<string, Json>, profile: string) returns (r: map<string, Json>)
    requires "sameAs" in schema && schema["sameAs"].JArray?
    ensures r.Keys == schema.Keys
    ensures forall k :: k in schema && k != "sameAs" ==> r[k] == schema[k]
    ensures r["sameAs"] == JArray(schema["sameAs"].items + (if profile != [] then [profile] else []))
  {
    r := schema;
    if profile != [] {
      r := r["sameAs" := JArray(r["sameAs"].items + [profile])];
    }
  }

  /** The dictionary `schema_data` of app.py:370-382: the literal, then the role entry, then one
      `sameAs` append per filled-in profile. */
  method BuildSchema(entity: EntityType, name: string, titleRole: string, website: string, bio: string,
                     linkedin: string, twitter: string, other: string)
    returns (schema: map<string, Json>)
    ensures schema.Keys == FixedKeys + {RoleKey(entity)}
    ensures forall k :: k in FixedKeys && k != "sameAs" ==> schema[k] == BaseRecord(entity, name, website, bio)[k]
    ensures schema[RoleKey(entity)] == JString(titleRole)
    ensures schema["sameAs"] == JArray(FilledIn([linkedin, twitter, other]))
  {
    schema := BaseRecord(entity, name, website, bio);
    if entity == Person {
      schema := schema["jobTitle" := JString(titleRole)];
    } else {
      schema := schema["industry" := JString(titleRole)];
    }
    assert schema["sameAs"] == JArray([]);
    schema := AddProfile(schema, linkedin);
    schema := AddProfile(schema, twitter);
    schema := AddProfile(schema, other);
    FilledInThree(linkedin, twitter, other);
  }

  /** Filling in one more profile appends it to the list; leaving it empty leaves the list alone. */
  lemma FilledInSnoc(profiles: seq<string>, p: string)
    ensures FilledIn(profiles + [p]) == FilledIn(profiles) + (if p != [] then [p] else [])
  {
    FilterAppend(profiles, [p], IsFilled);
  }

  /** The three profile boxes, filtered, are the filled-in ones in box order. */
  lemma FilledInThree(a: string, b: string, c: string)
    ensures FilledIn([a, b, c])
         == [] + (if a != [] then [a] else []) + (if b != [] then [b] else []) + (if c != [] then [c] else [])
  {
    FilledInSnoc([], a);
    FilledInSnoc([a], b);
    FilledInSnoc([a, b], c);
    assert [] + [a] == [a];
    assert [a] + [b] == [a, b];
    assert [a, b] + [c] == [a, b, c];
  }

  /** A person's record carries a job title and no industry; an organization's the reverse. */
  lemma RoleKeyExclusive(entity: EntityType)
    ensures RoleKey(entity) == "jobTitle" <==> entity == Person
    ensures RoleKey(entity) == "industry" <==> entity == Organization
    ensures RoleKey(entity) !in FixedKeys
  {
  }

  /** Scenario: only the Other box is filled in; the two empty boxes before it are skipped and
      `sameAs` is that one profile. */
  lemma OnlyOtherProfile(other: string)
    requires other != []
    ensures FilledIn(["", "", other]) == [other]
  {
    FilledInThree("", "", other);
  }
}
