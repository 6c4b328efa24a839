/** The URL templates of the client's accessors. Every accessor formats its
    identifiers into one fixed template under the region's base URL; `Path`
    is that table, and `RouteOf` reads a path back into the resource it names. */
module Routes {
  import opened Wrappers
  import opened Strings

  /** One value per accessor template; numeric identifiers are rendered with
      Python's `str()`, realm, character, guild and bracket names are used verbatim. */
  datatype Resource =
    | Achievement(achievementId: int)
    | AuctionStatus(realm: string)
    | BattlePetAbility(abilityId: int)
    | BattlePetSpecies(speciesId: int)
    | BattlePetStats(speciesId: int)
    | ChallengeRealm(realm: string)
    | ChallengeRegion
    | Character(realm: string, characterName: string)
    | Guild(realm: string, guildName: string)
    | Item(itemId: int)
    | ItemSet(setId: int)
    | Leaderboard(bracket: string)
    | Quest(questId: int)
    | RealmStatus
    | Recipe(recipeId: int)
    | Spell(spellId: int)
    | Battlegroups
    | CharacterRaces
    | CharacterClasses
    | CharacterAchievements
    | GuildRewards
    | GuildPerks
    | GuildAchievements
    | ItemClasses
    | Talents
    | PetTypes
    | Mounts
    | Zones
    | Zone(zoneId: int)
    | Bosses
    | Boss(bossId: int)

  /** `/<segment>/<rest>`: the shape shared by every template. */
  function Route(segment: string, rest: string): string {
    "/" + segment + "/" + rest
  }

  /** `<head>/<rest>`: a template's second level. */
  function Under(head: string, rest: string): string {
    head + "/" + rest
  }

  /** The path each accessor appends to the base URL; `RouteOf` reads it back. */
  function Path(r: Resource): (p: string)
    ensures |p| > 1 && p[0] == '/'
  {
    match r
    case Achievement(id) => Route("achievement", IntToString(id))
    case AuctionStatus(realm) => Route("auction", Under("data", realm))
    case BattlePetAbility(id) => Route("battlePet", Under("ability", IntToString(id)))
    case BattlePetSpecies(id) => Route("battlePet", Under("species", IntToString(id)))
    case BattlePetStats(id) => Route("battlePet", Under("stats", IntToString(id)))
    case ChallengeRealm(realm) => Route("challenge", realm)
    case ChallengeRegion => Route("challenge", "region")
    case Character(realm, name) => Route("character", Under(realm, name))
    case Guild(realm, name) => Route("guild", Under(realm, name))
    case Item(id) => Route("item", IntToString(id))
    case ItemSet(id) => Route("item", Under("set", IntToString(id)))
    case Leaderboard(bracket) => Route("leaderboard", bracket)
    case Quest(id) => Route("quest", IntToString(id))
    case RealmStatus => Route("realm", "status")
    case Recipe(id) => Route("recipe", IntToString(id))
    case Spell(id) => Route("spell", IntToString(id))
    case Battlegroups => Route("data", "battlegroups/")
    case CharacterRaces => Route("data", "character/races")
    case CharacterClasses => Route("data", "character/classes")
    case CharacterAchievements => Route("data", "character/achievements")
    case GuildRewards => Route("data", "guild/rewards")
    case GuildPerks => Route("data", "guild/perks")
    case GuildAchievements => Route("data", "guild/achievements")
    case ItemClasses => Route("data", "item/classes")
    case Talents => Route("data", "talents")
    case PetTypes => Route("data", "pet/types")
    case Mounts => Route("mount", "")
    case Zones => Route("zone", "")
    case Zone(id) => Route("zone", IntToString(id))
    case Bosses => Route("boss", "")
    case Boss(id) => Route("boss", IntToString(id))
  }

  /** A resource `RouteOf` recovers from its path. Two templates are ambiguous:
      a challenge realm literally named `region` is read as the region-wide
      challenge board, and a slash inside a character or guild realm moves the
      boundary between realm and name. Such a resource shares its path with
      another one (`AmbiguousHasTwin`), which may itself pass this test: the
      region-wide board does, and so does a character whose realm has no slash
      but whose name has one. Two resources that both pass never share a path
      (`PathInjective`). */
  predicate Unambiguous(r: Resource) {
    match r
    case ChallengeRealm(realm) => realm != "region"
    case Character(realm, _) => '/' !in realm
    case Guild(realm, _) => '/' !in realm
    case _ => true
  }

  function WithId(rest: string, make: int -> Resource): Option<Resource> {
    match ParseInt(rest)
    case Some(n) => Some(make(n))
    case None => None
  }

  /** The resource named by the part of a path after its first segment. */
  function Dispatch(segment: string, rest: string): Option<Resource> {
    if segment == "achievement" then WithId(rest, n => Achievement(n))
    else if segment == "auction" then
      match Cut(rest, '/')
      case Some((kind, realm)) => if kind == "data" then Some(AuctionStatus(realm)) else None
      case None => None
    else if segment == "battlePet" then ReadBattlePet(rest)
    else if segment == "challenge" then
      if rest == "region" then Some(ChallengeRegion) else Some(ChallengeRealm(rest))
    else if segment == "character" then ReadCharacter(rest)
    else if segment == "guild" then ReadGuild(rest)
    else if segment == "item" then ReadItem(rest)
    else if segment == "leaderboard" then Some(Leaderboard(rest))
    else if segment == "quest" then WithId(rest, n => Quest(n))
    else if segment == "realm" then (if rest == "status" then Some(RealmStatus) else None)
    else if segment == "recipe" then WithId(rest, n => Recipe(n))
    else if segment == "spell" then WithId(rest, n => Spell(n))
    else if segment == "data" then ReadData(rest)
    else if segment == "mount" then (if rest == "" then Some(Mounts) else None)
    else if segment == "zone" then (if rest == "" then Some(Zones) else WithId(rest, n => Zone(n)))
    else if segment == "boss" then (if rest == "" then Some(Bosses) else WithId(rest, n => Boss(n)))
    else None
  }

  /* Readers for the part after a segment that has several templates. */

  function ReadBattlePet(rest: string): Option<Resource> {
    match Cut(rest, '/')
    case Some((kind, id)) =>
      (match ParseInt(id)
       case Some(n) => BattlePetOf(kind, n)
       case None => None)
    case None => None
  }

  function BattlePetOf(kind: string, n: int): Option<Resource> {
    if kind == "ability" then Some(BattlePetAbility(n))
    else if kind == "species" then Some(BattlePetSpecies(n))
    else if kind == "stats" then Some(BattlePetStats(n))
    else None
  }

  /** The three battle-pet templates share one proof, kept free of literals. */
  lemma BattlePetRoute(r: Resource, kind: string, id: int)
    requires '/' !in kind
    requires BattlePetOf(kind, id) == Some(r)
    requires Path(r) == Route("battlePet", Under(kind, IntToString(id)))
    ensures RouteOf(Path(r)) == Some(r)
  {
    var rest := Under(kind, IntToString(id));
    ReadBattlePetOf(kind, id);
    DispatchBattlePet(rest);
    Recovers(r, "battlePet", rest);
  }

  lemma ReadBattlePetOf(kind: string, id: int)
    requires '/' !in kind
    ensures ReadBattlePet(Under(kind, IntToString(id))) == BattlePetOf(kind, id)
  {
    assert Under(kind, IntToString(id)) == kind + ['/'] + IntToString(id);
    CutConcat(kind, IntToString(id), '/');
    IntToStringRoundTrip(id);
  }

  function ReadCharacter(rest: string): Option<Resource> {
    match Cut(rest, '/')
    case Some((realm, name)) => Some(Character(realm, name))
    case None => None
  }

  function ReadGuild(rest: string): Option<Resource> {
    match Cut(rest, '/')
    case Some((realm, name)) => Some(Guild(realm, name))
    case None => None
  }

  function ReadItem(rest: string): Option<Resource> {
    match Cut(rest, '/')
    case None => WithId(rest, n => Item(n))
    case Some((kind, id)) => if kind == "set" then WithId(id, n => ItemSet(n)) else None
  }

  function ReadData(rest: string): Option<Resource> {
    if rest == "battlegroups/" then Some(Battlegroups)
    else if rest == "character/races" then Some(CharacterRaces)
    else if rest == "character/classes" then Some(CharacterClasses)
    else if rest == "character/achievements" then Some(CharacterAchievements)
    else if rest == "guild/rewards" then Some(GuildRewards)
    else if rest == "guild/perks" then Some(GuildPerks)
    else if rest == "guild/achievements" then Some(GuildAchievements)
    else if rest == "item/classes" then Some(ItemClasses)
    else if rest == "talents" then Some(Talents)
    else if rest == "pet/types" then Some(PetTypes)
    else None
  }

  /** Reads a resource path back into the resource it requests. */
  function RouteOf(path: string): Option<Resource> {
    if |path| == 0 || path[0] != '/' then None
    else
      match Cut(path[1..], '/')
      case Some((segment, rest)) => Dispatch(segment, rest)
      case None => None
  }

  lemma RouteSplits(segment: string, rest: string)
    requires '/' !in segment
    ensures RouteOf(Route(segment, rest)) == Dispatch(segment, rest)
  {
    var p := Route(segment, rest);
    assert p[1..] == segment + ['/'] + rest;
    CutConcat(segment, rest, '/');
  }

  lemma Recovers(r: Resource, segment: string, rest: string)
    requires '/' !in segment
    requires Path(r) == Route(segment, rest)
    requires Dispatch(segment, rest) == Some(r)
    ensures RouteOf(Path(r)) == Some(r)
  {
    RouteSplits(segment, rest);
  }

  /* The resources identified by a number: one lemma each keeps every proof small. */

  lemma AchievementRoute(id: int)
    ensures RouteOf(Path(Achievement(id))) == Some(Achievement(id))
  {
    IntToStringRoundTrip(id);
    Recovers(Achievement(id), "achievement", IntToString(id));
  }

  lemma BattlePetAbilityRoute(id: int)
    ensures RouteOf(Path(BattlePetAbility(id))) == Some(BattlePetAbility(id))
  {
    BattlePetRoute(BattlePetAbility(id), "ability", id);
  }

  lemma BattlePetSpeciesRoute(id: int)
    ensures RouteOf(Path(BattlePetSpecies(id))) == Some(BattlePetSpecies(id))
  {
    BattlePetRoute(BattlePetSpecies(id), "species", id);
  }

  lemma BattlePetStatsRoute(id: int)
    ensures RouteOf(Path(BattlePetStats(id))) == Some(BattlePetStats(id))
  {
    BattlePetRoute(BattlePetStats(id), "stats", id);
  }

  lemma ItemRoute(id: int)
    ensures RouteOf(Path(Item(id))) == Some(Item(id))
  {
    IntToStringAvoids(id, '/');
    IntToStringRoundTrip(id);
    assert ReadItem(IntToString(id)) == Some(Item(id));
    DispatchItem(IntToString(id));
    Recovers(Item(id), "item", IntToString(id));
  }

  lemma ItemSetRoute(id: int)
    ensures RouteOf(Path(ItemSet(id))) == Some(ItemSet(id))
  {
    var rest := Under("set", IntToString(id));
    assert rest == "set" + ['/'] + IntToString(id);
    CutConcat("set", IntToString(id), '/');
    IntToStringRoundTrip(id);
    assert ReadItem(rest) == Some(ItemSet(id));
    DispatchItem(rest);
    Recovers(ItemSet(id), "item", rest);
  }

  lemma QuestRoute(id: int)
    ensures RouteOf(Path(Quest(id))) == Some(Quest(id))
  {
    IntToStringRoundTrip(id);
    Recovers(Quest(id), "quest", IntToString(id));
  }

  lemma RecipeRoute(id: int)
    ensures RouteOf(Path(Recipe(id))) == Some(Recipe(id))
  {
    IntToStringRoundTrip(id);
    Recovers(Recipe(id), "recipe", IntToString(id));
  }

  lemma SpellRoute(id: int)
    ensures RouteOf(Path(Spell(id))) == Some(Spell(id))
  {
    IntToStringRoundTrip(id);
    Recovers(Spell(id), "spell", IntToString(id));
  }

  lemma ZoneRoute(id: int)
    ensures RouteOf(Path(Zone(id))) == Some(Zone(id))
  {
    IntToStringRoundTrip(id);
    Recovers(Zone(id), "zone", IntToString(id));
  }

  lemma BossRoute(id: int)
    ensures RouteOf(Path(Boss(id))) == Some(Boss(id))
  {
    IntToStringRoundTrip(id);
    Recovers(Boss(id), "boss", IntToString(id));
  }

  /* The fixed data listings. */

  lemma BattlegroupsRoute()
    ensures RouteOf(Path(Battlegroups)) == Some(Battlegroups)
  {
    assert ReadData("battlegroups/") == Some(Battlegroups);
    Recovers(Battlegroups, "data", "battlegroups/");
  }

  lemma CharacterRacesRoute()
    ensures RouteOf(Path(CharacterRaces)) == Some(CharacterRaces)
  {
    assert ReadData("character/races") == Some(CharacterRaces);
    Recovers(CharacterRaces, "data", "character/races");
  }

  lemma CharacterClassesRoute()
    ensures RouteOf(Path(CharacterClasses)) == Some(CharacterClasses)
  {
    assert ReadData("character/classes") == Some(CharacterClasses);
    Recovers(CharacterClasses, "data", "character/classes");
  }

  lemma CharacterAchievementsRoute()
    ensures RouteOf(Path(CharacterAchievements)) == Some(CharacterAchievements)
  {
    assert ReadData("character/achievements") == Some(CharacterAchievements);
    Recovers(CharacterAchievements, "data", "character/achievements");
  }

  lemma GuildRewardsRoute()
    ensures RouteOf(Path(GuildRewards)) == Some(GuildRewards)
  {
    assert ReadData("guild/rewards") == Some(GuildRewards);
    Recovers(GuildRewards, "data", "guild/rewards");
  }

  lemma GuildPerksRoute()
    ensures RouteOf(Path(GuildPerks)) == Some(GuildPerks)
  {
    assert ReadData("guild/perks") == Some(GuildPerks);
    Recovers(GuildPerks, "data", "guild/perks");
  }

  lemma GuildAchievementsRoute()
    ensures RouteOf(Path(GuildAchievements)) == Some(GuildAchievements)
  {
    assert ReadData("guild/achievements") == Some(GuildAchievements);
    Recovers(GuildAchievements, "data", "guild/achievements");
  }

  lemma ItemClassesRoute()
    ensures RouteOf(Path(ItemClasses)) == Some(ItemClasses)
  {
    assert ReadData("item/classes") == Some(ItemClasses);
    Recovers(ItemClasses, "data", "item/classes");
  }

  lemma TalentsRoute()
    ensures RouteOf(Path(Talents)) == Some(Talents)
  {
    assert ReadData("talents") == Some(Talents);
    Recovers(Talents, "data", "talents");
  }

  lemma PetTypesRoute()
    ensures RouteOf(Path(PetTypes)) == Some(PetTypes)
  {
    assert ReadData("pet/types") == Some(PetTypes);
    Recovers(PetTypes, "data", "pet/types");
  }

  lemma RealmStatusRoute()
    ensures RouteOf(Path(RealmStatus)) == Some(RealmStatus)
  {
    assert Dispatch("realm", "status") == Some(RealmStatus);
    Recovers(RealmStatus, "realm", "status");
  }

  lemma ChallengeRegionRoute()
    ensures RouteOf(Path(ChallengeRegion)) == Some(ChallengeRegion)
  {
    assert Dispatch("challenge", "region") == Some(ChallengeRegion);
    Recovers(ChallengeRegion, "challenge", "region");
  }

  lemma MountsRoute()
    ensures RouteOf(Path(Mounts)) == Some(Mounts)
  {
    assert Dispatch("mount", "") == Some(Mounts);
    Recovers(Mounts, "mount", "");
  }

  lemma ZonesRoute()
    ensures RouteOf(Path(Zones)) == Some(Zones)
  {
    assert Dispatch("zone", "") == Some(Zones);
    Recovers(Zones, "zone", "");
  }

  lemma BossesRoute()
    ensures RouteOf(Path(Bosses)) == Some(Bosses)
  {
    assert Dispatch("boss", "") == Some(Bosses);
    Recovers(Bosses, "boss", "");
  }

  /* The resources named by realm, character, guild or bracket. */

  lemma AuctionStatusRoute(realm: string)
    ensures RouteOf(Path(AuctionStatus(realm))) == Some(AuctionStatus(realm))
  {
    var rest := Under("data", realm);
    assert rest == "data" + ['/'] + realm;
    CutConcat("data", realm, '/');
    assert Dispatch("auction", rest) == Some(AuctionStatus(realm));
    Recovers(AuctionStatus(realm), "auction", rest);
  }

  lemma ChallengeRealmRoute(realm: string)
    requires realm != "region"
    ensures RouteOf(Path(ChallengeRealm(realm))) == Some(ChallengeRealm(realm))
  {
    assert Dispatch("challenge", realm) == Some(ChallengeRealm(realm));
    Recovers(ChallengeRealm(realm), "challenge", realm);
  }

  lemma CharacterRoute(realm: string, name: string)
    requires '/' !in realm
    ensures RouteOf(Path(Character(realm, name))) == Some(Character(realm, name))
  {
    assert Under(realm, name) == realm + ['/'] + name;
    CutConcat(realm, name, '/');
    assert ReadCharacter(Under(realm, name)) == Some(Character(realm, name));
    DispatchCharacter(Under(realm, name));
    Recovers(Character(realm, name), "character", Under(realm, name));
  }

  lemma GuildRoute(realm: string, name: string)
    requires '/' !in realm
    ensures RouteOf(Path(Guild(realm, name))) == Some(Guild(realm, name))
  {
    assert Under(realm, name) == realm + ['/'] + name;
    CutConcat(realm, name, '/');
    assert ReadGuild(Under(realm, name)) == Some(Guild(realm, name));
    DispatchGuild(Under(realm, name));
    Recovers(Guild(realm, name), "guild", Under(realm, name));
  }

  lemma LeaderboardRoute(bracket: string)
    ensures RouteOf(Path(Leaderboard(bracket))) == Some(Leaderboard(bracket))
  {
    assert Dispatch("leaderboard", bracket) == Some(Leaderboard(bracket));
    Recovers(Leaderboard(bracket), "leaderboard", bracket);
  }

  /* Selecting the second-level reader from the first segment. */

  lemma DispatchCharacter(rest: string)
    ensures Dispatch("character", rest) == ReadCharacter(rest)
  {
  }

  lemma DispatchBattlePet(rest: string)
    ensures Dispatch("battlePet", rest) == ReadBattlePet(rest)
  {
  }

  lemma DispatchItem(rest: string)
    ensures Dispatch("item", rest) == ReadItem(rest)
  {
  }

  lemma DispatchGuild(rest: string)
    ensures Dispatch("guild", rest) == ReadGuild(rest)
  {
  }

  /** Every unambiguous resource is recovered from its path. */
  lemma RouteOfPath(r: Resource)
    requires Unambiguous(r)
    ensures RouteOf(Path(r)) == Some(r)
  {
    match r {
      case Achievement(id) => AchievementRoute(id);
      case BattlePetAbility(id) => BattlePetAbilityRoute(id);
      case BattlePetSpecies(id) => BattlePetSpeciesRoute(id);
      case BattlePetStats(id) => BattlePetStatsRoute(id);
      case Item(id) => ItemRoute(id);
      case ItemSet(id) => ItemSetRoute(id);
      case Quest(id) => QuestRoute(id);
      case Recipe(id) => RecipeRoute(id);
      case Spell(id) => SpellRoute(id);
      case Zone(id) => ZoneRoute(id);
      case Boss(id) => BossRoute(id);
      case AuctionStatus(realm) => AuctionStatusRoute(realm);
      case ChallengeRealm(realm) => ChallengeRealmRoute(realm);
      case Character(realm, name) => CharacterRoute(realm, name);
      case Guild(realm, name) => GuildRoute(realm, name);
      case Leaderboard(bracket) => LeaderboardRoute(bracket);
      case Battlegroups => BattlegroupsRoute();
      case CharacterRaces => CharacterRacesRoute();
      case CharacterClasses => CharacterClassesRoute();
      case CharacterAchievements => CharacterAchievementsRoute();
      case GuildRewards => GuildRewardsRoute();
      case GuildPerks => GuildPerksRoute();
      case GuildAchievements => GuildAchievementsRoute();
      case ItemClasses => ItemClassesRoute();
      case Talents => TalentsRoute();
      case PetTypes => PetTypesRoute();
      case RealmStatus => RealmStatusRoute();
      case ChallengeRegion => ChallengeRegionRoute();
      case Mounts => MountsRoute();
      case Zones => ZonesRoute();
      case Bosses => BossesRoute();
    }
  }

  /** Two unambiguous resources never share a path. */
  lemma PathInjective(a: Resource, b: Resource)
    requires Unambiguous(a) && Unambiguous(b)
    requires Path(a) == Path(b)
    ensures a == b
  {
    RouteOfPath(a);
    RouteOfPath(b);
  }

  /** A slash inside a realm name can be moved across the realm/name boundary. */
  lemma SlashShift(realm: string, name: string) returns (head: string, tail: string)
    requires '/' in realm
    ensures head != realm
    ensures Under(head, tail) == Under(realm, name)
  {
    var cut := Cut(realm, '/');
    head, tail := cut.value.0, cut.value.1 + "/" + name;
    assert |head| < |realm|;
  }

  /** Conversely, every ambiguous resource shares its path with a different one. */
  lemma AmbiguousHasTwin(r: Resource)
    requires !Unambiguous(r)
    ensures exists other :: other != r && Path(other) == Path(r)
  {
    match r {
      case ChallengeRealm(realm) =>
        assert Path(ChallengeRegion) == Path(r);
      case Character(realm, name) =>
        var head, tail := SlashShift(realm, name);
        assert Path(Character(head, tail)) == Path(r);
      case Guild(realm, name) =>
        var head, tail := SlashShift(realm, name);
        assert Path(Guild(head, tail)) == Path(r);
    }
  }
}
