/** The greeting and wish phrases of the morning message and the two list
    edits that use them. extension/plugins/moriningsummary_plugin.py
    (`_say_goodmorning`, `_wish_goodday`) and the tg-bot plugins
    goodmorning_plugin.py and haveaniceday_plugin.py carry the same
    phrase lists and the same edits; this module serves all three. */
module Greetings {
  import opened TextLists

  const GOOD_MORNING_PHRASES: seq<string> := ["Доброе утро!", "С добрым утром!", "Подъем!", "Guten morgen!"]
  const DEFAULT_WISHES: seq<string> := ["Хорошего дня!", "Отличной работы", "Have a nice day!"]
  const HARDWORK_WISHES: seq<string> := ["За работу блин!", "Вперед на завод!!!", "Работаем + жоска ботаем"]
  const WEEKENDS_WISHES: seq<string> := ["Выходные! Выходные! Я забыл прооо выходные", "Хороших выходных!", "Не забывай отдыхать!"]
  const MONDAY_WISHES: seq<string> := ["С понедельничком!", "С началом рабочей недели!", "Это понедельник!", "Cнова понедельник!"]

  /** The clock and the random source as seen by one edit: the seed picks
      the element `random.choice` returns, `dateText` is today's date as
      `strftime("%d %b %A")` prints it, `weekday` is `weekday()` of now. */
  datatype Env = Env(seed: nat, dateText: string, weekday: int)

  /** `random.choice(pool)`. */
  function Choose(pool: seq<string>, seed: nat): (x: string)
    requires pool != []
    ensures x in pool
  {
    pool[seed % |pool|]
  }

  /** Every element of the pool can be the one chosen. */
  lemma ChooseCanPickAny(pool: seq<string>, x: string)
    requires x in pool
    ensures exists seed: nat :: Choose(pool, seed) == x
  {
    var i :| 0 <= i < |pool| && pool[i] == x;
    assert Choose(pool, i) == x;
  }

  function DateLine(dateText: string): string
  {
    "Сегодня <b>" + dateText + "</b>\n"
  }

  /** The wish pool for a message of `lines` lines on `weekday`. */
  function WishPool(lines: int, weekday: int): (pool: seq<string>)
    ensures |pool| == 3 + (if lines > 16 then 3 else 0) + (if 5 <= weekday < 7 then 3 else if weekday == 0 then 4 else 0)
    ensures pool[..3] == DEFAULT_WISHES
  {
    var pool := DEFAULT_WISHES;
    var pool := if lines > 16 then pool + HARDWORK_WISHES else pool;
    if 5 <= weekday < 7 then pool + WEEKENDS_WISHES
    else if weekday == 0 then pool + MONDAY_WISHES
    else pool
  }

  /** A wish can be chosen iff it is a default wish, a hard-work wish for
      a message of more than 16 lines, a weekend wish on Saturday or
      Sunday, or a Monday wish on Monday. */
  lemma WishPoolMembers(lines: int, weekday: int, x: string)
    ensures x in WishPool(lines, weekday) <==>
              x in DEFAULT_WISHES || (lines > 16 && x in HARDWORK_WISHES) ||
              (5 <= weekday < 7 && x in WEEKENDS_WISHES) || (weekday == 0 && x in MONDAY_WISHES)
  {
  }

  /** The phrase lists share no phrase, so the wish that was chosen shows
      which rule put it in the pool. */
  lemma WishListsDisjoint(x: string)
    ensures !(x in DEFAULT_WISHES && x in HARDWORK_WISHES)
    ensures !(x in DEFAULT_WISHES && x in WEEKENDS_WISHES)
    ensures !(x in DEFAULT_WISHES && x in MONDAY_WISHES)
    ensures !(x in HARDWORK_WISHES && x in WEEKENDS_WISHES)
    ensures !(x in HARDWORK_WISHES && x in MONDAY_WISHES)
    ensures !(x in WEEKENDS_WISHES && x in MONDAY_WISHES)
  {
  }

  /** The list after `_say_goodmorning`. */
  function GoodmorningSpec(items: seq<string>, env: Env): seq<string>
  {
    [Choose(GOOD_MORNING_PHRASES, env.seed), DateLine(env.dateText)] + items
  }

  /** The list is exactly two longer: a greeting at index 0, the date line
      at index 1, and the old lines after them in their order. */
  lemma GoodmorningSpecShape(items: seq<string>, env: Env)
    ensures var r := GoodmorningSpec(items, env);
            |r| == |items| + 2 && r[0] in GOOD_MORNING_PHRASES &&
            r[1] == DateLine(env.dateText) && r[2..] == items
  {
  }

  /** The list after `_wish_goodday`. */
  function WishSpec(items: seq<string>, env: Env): seq<string>
  {
    items + [Choose(WishPool(|items|, env.weekday), env.seed)]
  }

  /** Exactly one wish from the pool is appended; earlier lines are
      untouched. */
  lemma WishSpecShape(items: seq<string>, env: Env)
    ensures var r := WishSpec(items, env);
            |r| == |items| + 1 && r[..|items|] == items && r[|items|] in WishPool(|items|, env.weekday)
  {
  }

  /** `_say_goodmorning` / `GoodmorningPlugin._process_message`. */
  method SayGoodmorning(message: TextList, env: Env)
    modifies message
    ensures message.items == GoodmorningSpec(old(message.items), env)
  {
    message.Insert(0, Choose(GOOD_MORNING_PHRASES, env.seed));
    message.Insert(1, DateLine(env.dateText));
  }

  /** `_wish_goodday` / `HaveanicedayPlugin._process_message`. */
  method WishGoodday(message: TextList, env: Env)
    modifies message
    ensures message.items == WishSpec(old(message.items), env)
  {
    var pool := WishPool(|message.items|, env.weekday);
    message.Append(Choose(pool, env.seed));
  }
}
