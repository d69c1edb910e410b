/** Patching a command template in place. */
module Templates {
  import opened Tunnel

  /** The fields of a template that a patch can name. */
  datatype Fields = Fields(description: string, risk: string, targetOS: seq<string>, schema: string,
                           defaultTimeout: int, maxTimeout: int, maxOutput: int, enabled: bool)

  datatype Patch = Patch(description: Option<string>, risk: Option<string>, targetOS: Option<seq<string>>,
                         schema: Option<string>, defaultTimeout: Option<int>, maxTimeout: Option<int>,
                         maxOutput: Option<int>, enabled: Option<bool>)

  datatype Reply = Updated | BadRisk | BadSchema | BadTimeouts

  predicate ValidRisk(risk: string) {
    risk in {"readonly", "mutating", "dangerous"}
  }

  predicate ValidTimeouts(f: Fields) {
    0 < f.defaultTimeout <= f.maxTimeout
  }

  function Or<T>(given: Option<T>, current: T): T {
    if given.Some? then given.value else current
  }

  /** The fields with everything the patch names, valid or not. */
  function Patched(f: Fields, p: Patch): Fields {
    Fields(Or(p.description, f.description), Or(p.risk, f.risk), Or(p.targetOS, f.targetOS),
           Or(p.schema, f.schema), Or(p.defaultTimeout, f.defaultTimeout),
           Or(p.maxTimeout, f.maxTimeout), Or(p.maxOutput, f.maxOutput), Or(p.enabled, f.enabled))
  }

  /** What the patch is answered, if the schema in it is `schemaOk`. */
  function Answer(f: Fields, p: Patch, schemaOk: bool): Reply {
    if NamesBadRisk(p) then BadRisk
    else if NamesBadSchema(p, schemaOk) then BadSchema
    else if !ValidTimeouts(Patched(f, p)) then BadTimeouts
    else Updated
  }

  /** The part of a patch that has been written when it is refused. */
  function WrittenPart(p: Patch, r: Reply): Patch {
    match r
    case BadRisk => Patch(p.description, None, None, None, None, None, None, None)
    case BadSchema => Patch(p.description, p.risk, p.targetOS, None, None, None, None, None)
    case _ => p
  }

  function After(f: Fields, p: Patch, schemaOk: bool): Fields {
    Patched(f, WrittenPart(p, Answer(f, p, schemaOk)))
  }

  class Template {
    var fields: Fields
    var updatedAt: int

    constructor (fields: Fields, now: int)
      ensures this.fields == fields && updatedAt == now
    {
      this.fields, updatedAt := fields, now;
    }

    method Update(p: Patch, schemaOk: bool, now: int) returns (r: Reply)
      modifies this
      ensures r == Answer(old(fields), p, schemaOk)
      ensures fields == After(old(fields), p, schemaOk)
      ensures updatedAt == if r == Updated then now else old(updatedAt)
    {
      fields := fields.(description := Or(p.description, fields.description));
      if p.risk.Some? {
        if !ValidRisk(p.risk.value) {
          return BadRisk;
        }
        fields := fields.(risk := p.risk.value);
      }
      fields := fields.(targetOS := Or(p.targetOS, fields.targetOS));
      if p.schema.Some? {
        if !schemaOk {
          return BadSchema;
        }
        fields := fields.(schema := p.schema.value);
      }
      fields := fields.(defaultTimeout := Or(p.defaultTimeout, fields.defaultTimeout));
      fields := fields.(maxTimeout := Or(p.maxTimeout, fields.maxTimeout));
      fields := fields.(maxOutput := Or(p.maxOutput, fields.maxOutput));
      fields := fields.(enabled := Or(p.enabled, fields.enabled));
      if fields.defaultTimeout <= 0 || fields.maxTimeout <= 0 || fields.defaultTimeout > fields.maxTimeout {
        return BadTimeouts;
      }
      updatedAt := now;
      r := Updated;
    }
  }

  /** The value the patch names is written, and without one nothing is. */
  predicate Takes<T(==)>(given: Option<T>, before: T, after: T) {
    (given.Some? ==> after == given.value) && (given.None? ==> after == before)
  }

  /** What each patch writes, accepted or refused, field by field.  A bad risk level stops it after the
      description, a bad schema after the target systems, and bad timeouts stop nothing. */
  lemma WhatAPatchWrites(f: Fields, p: Patch, schemaOk: bool)
    ensures var a := After(f, p, schemaOk);
            && Takes(p.description, f.description, a.description)
            && (if NamesBadRisk(p) then a == f.(description := a.description)
                else
                  && Takes(p.risk, f.risk, a.risk) && Takes(p.targetOS, f.targetOS, a.targetOS)
                  && (if NamesBadSchema(p, schemaOk)
                      then a == f.(description := a.description, risk := a.risk, targetOS := a.targetOS)
                      else
                        && Takes(p.schema, f.schema, a.schema)
                        && Takes(p.defaultTimeout, f.defaultTimeout, a.defaultTimeout)
                        && Takes(p.maxTimeout, f.maxTimeout, a.maxTimeout)
                        && Takes(p.maxOutput, f.maxOutput, a.maxOutput)
                        && Takes(p.enabled, f.enabled, a.enabled)))
  {
  }

  /** A patch is accepted exactly if its risk level and its schema are good and the timeouts that are
      then the template's are valid; and an accepted template always has valid timeouts. */
  lemma AcceptedMeansValid(f: Fields, p: Patch, schemaOk: bool)
    ensures Answer(f, p, schemaOk) == Updated <==>
            && (p.risk.Some? ==> p.risk.value in {"readonly", "mutating", "dangerous"})
            && (p.schema.Some? ==> schemaOk)
            && 0 < After(f, p, schemaOk).defaultTimeout <= After(f, p, schemaOk).maxTimeout
    ensures Answer(f, p, schemaOk) == BadRisk <==>
            p.risk.Some? && p.risk.value !in {"readonly", "mutating", "dangerous"}
    ensures Answer(f, p, schemaOk) == BadSchema <==>
            && (p.risk.Some? ==> p.risk.value in {"readonly", "mutating", "dangerous"})
            && p.schema.Some? && !schemaOk
  {
  }

  /** The patch names the value the template has, or none. */
  predicate Same<T(==)>(given: Option<T>, current: T) {
    given == None || given == Some(current)
  }

  predicate NamesBadRisk(p: Patch) {
    p.risk.Some? && !ValidRisk(p.risk.value)
  }

  predicate NamesBadSchema(p: Patch, schemaOk: bool) {
    p.schema.Some? && !schemaOk
  }

  /** A patch that is refused by a template with valid timeouts leaves it alone exactly if it names a
      bad risk level and no new description, or a good risk level, a bad schema, and no new
      description, risk level and target systems.  A patch refused for its timeouts always changes
      the template. */
  lemma RefusedPatchLeavesTemplateAlone(f: Fields, p: Patch, schemaOk: bool)
    requires ValidTimeouts(f) && Answer(f, p, schemaOk) != Updated
    ensures After(f, p, schemaOk) == f <==>
            || (NamesBadRisk(p) && Same(p.description, f.description))
            || (!NamesBadRisk(p) && NamesBadSchema(p, schemaOk)
                && Same(p.description, f.description) && Same(p.risk, f.risk) && Same(p.targetOS, f.targetOS))
  {
  }

  /** Once the timeouts are bad, a patch that is refused for them leaves the template alone exactly if
      it names nothing new at all. */
  lemma RefusedAgainLeavesTemplateAlone(f: Fields, p: Patch, schemaOk: bool)
    requires !ValidTimeouts(f) && Answer(f, p, schemaOk) == BadTimeouts
    ensures After(f, p, schemaOk) == f <==>
            && Same(p.description, f.description) && Same(p.risk, f.risk) && Same(p.targetOS, f.targetOS)
            && Same(p.schema, f.schema) && Same(p.defaultTimeout, f.defaultTimeout)
            && Same(p.maxTimeout, f.maxTimeout) && Same(p.maxOutput, f.maxOutput) && Same(p.enabled, f.enabled)
  {
  }

  /** A template with valid timeouts keeps them exactly if the patch is not refused for its
      timeouts.  If it is, the bad timeouts stay, and they make the template refuse every later
      patch that does not repair them. */
  lemma RefusedTimeoutsStay(f: Fields, p: Patch, schemaOk: bool, later: Patch, laterSchemaOk: bool)
    requires ValidTimeouts(f)
    ensures ValidTimeouts(After(f, p, schemaOk)) <==> Answer(f, p, schemaOk) != BadTimeouts
    ensures Answer(f, p, schemaOk) == BadTimeouts && later.defaultTimeout == None && later.maxTimeout == None
            ==> Answer(After(f, p, schemaOk), later, laterSchemaOk) != Updated
  {
  }
}
