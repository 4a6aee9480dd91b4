/**
 * The records the prayer-companion app keeps (types/index.ts) and the fixed
 * table of the five daily prayers (mocks/islamic-content.ts).
 */
module NoorTypes {
  import opened KeyValue

  /** Where a prayer stands today. */
  datatype PrayerStatus = Pending | OnTime | Late | Missed

  /** One entry of today's five-prayer checklist. */
  datatype Prayer = Prayer(id: string, name: string, nameArabic: string, status: PrayerStatus, time: string)

  /** The blob persisted under the prayers key: a day and that day's checklist. */
  datatype DailyPrayers = DailyPrayers(date: string, prayers: seq<Prayer>)

  /** One finished or abandoned counting session of the tasbih (dhikr counter). */
  datatype TasbihSession = TasbihSession(id: string, presetId: string, count: int, target: int, date: string, completed: bool)

  /** A session as handed to the store, before it is given an id. */
  datatype TasbihDraft = TasbihDraft(presetId: string, count: int, target: int, date: string, completed: bool)

  datatype Mood = Grateful | Peaceful | Reflective | Hopeful | Struggling

  /** One journal reflection; the mood is optional. */
  datatype JournalEntry = JournalEntry(id: string, date: string, content: string, mood: Option<Mood>, createdAt: string, updatedAt: string)

  /** An entry as handed to the store, before it is given an id and timestamps. */
  datatype JournalDraft = JournalDraft(date: string, content: string, mood: Option<Mood>)

  /** A row of the prayer-name table. */
  datatype PrayerName = PrayerName(id: string, name: string, nameArabic: string)

  /** The five daily prayers, in the order of the day. */
  const PrayerNames: seq<PrayerName> := [
    PrayerName("fajr", "Fajr", "الفجر"),
    PrayerName("dhuhr", "Dhuhr", "الظهر"),
    PrayerName("asr", "Asr", "العصر"),
    PrayerName("maghrib", "Maghrib", "المغرب"),
    PrayerName("isha", "Isha", "العشاء")
  ]

  /** The placeholder schedule, one time per row of PrayerNames. */
  const PrayerTimes: seq<string> := ["05:30", "12:30", "15:45", "18:15", "19:45"]
}
