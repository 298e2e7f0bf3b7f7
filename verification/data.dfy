/**
 * The fixed curriculum of src/data.ts: seventeen levels, each with four
 * characters and a four-page story, the three achievements and the
 * `dailyCharacters` alias. Presentation-only fields (icon, group, color,
 * character images) are left out; everything the controller reads is kept.
 */
module Data {
  import opened Wrappers

  /** One character card (src/data.ts:3-11). */
  datatype Character = Character(id: int, glyph: string, pinyin: string, words: seq<string>)

  /** A story page and a story (src/data.ts:13-21). */
  datatype Page = Page(image: string, text: string)
  datatype Story = Story(title: string, pages: seq<Page>)

  /** A level (src/data.ts:23-30). */
  datatype Status = Locked | Unlocked | Completed
  datatype Level = Level(id: int, title: string, status: Status, characters: seq<Character>, story: Story)

  // src/data.ts:33-53
  const Level1: Level := Level(
    1, "第一关：神奇数字", Unlocked,
    [
      Character(101, "一", "yī", ["一个", "一同"]),
      Character(102, "二", "èr", ["二人", "独一无二"]),
      Character(103, "三", "sān", ["三天", "三心二意"]),
      Character(104, "四", "sì", ["四季", "四面八方"])
    ],
    Story("数字王国的派对", [
      Page("/images/1.png", "一只小猫戴皇冠。"),
      Page("/images/2.png", "二只小鸟在歌唱。"),
      Page("/images/3.png", "三个气球飞上天。"),
      Page("/images/4.png", "四朵雪花飘下来。")
    ]))

  // src/data.ts:54-74
  const Level2: Level := Level(
    2, "第二关：自然奥秘", Locked,
    [
      Character(201, "天", "tiān", ["天空", "白天"]),
      Character(202, "地", "dì", ["土地", "种地"]),
      Character(203, "人", "rén", ["大人", "好人"]),
      Character(204, "火", "huǒ", ["大火", "火山"])
    ],
    Story("天地人火", [
      Page("/images/1.png", "蓝蓝的天空。"),
      Page("/images/2.png", "宽宽的大地。"),
      Page("/images/3.png", "勤劳的人们。"),
      Page("/images/4.png", "红红的火焰。")
    ]))

  // src/data.ts:75-95
  const Level3: Level := Level(
    3, "日月星云", Locked,
    [
      Character(301, "日", "rì", ["日子", "红日"]),
      Character(302, "月", "yuè", ["月亮", "一月"]),
      Character(303, "星", "xīng", ["星星", "火星"]),
      Character(304, "云", "yún", ["白云", "云朵"])
    ],
    Story("天空的样子", [
      Page("/images/L3_1.jpg", "红红的日头挂天上。"),
      Page("/images/L3_2.jpg", "弯弯的月亮像小船。"),
      Page("/images/L3_3.jpg", "闪闪的星星眨眼睛。"),
      Page("/images/L3_4.jpg", "白白的云朵飘啊飘。")
    ]))

  // src/data.ts:96-116
  const Level4: Level := Level(
    4, "风雨雷电", Locked,
    [
      Character(401, "风", "fēng", ["大风", "风车"]),
      Character(402, "雨", "yǔ", ["下雨", "雨衣"]),
      Character(403, "雷", "léi", ["打雷", "雷电"]),
      Character(404, "电", "diàn", ["电视", "电话"])
    ],
    Story("天气变变变", [
      Page("/images/L4_1.jpg", "呼呼的大风吹树叶。"),
      Page("/images/L4_2.jpg", "哗哗的大雨落下来。"),
      Page("/images/L4_3.jpg", "轰隆隆打雷真吓人。"),
      Page("/images/L4_4.jpg", "天上的闪电亮晶晶。")
    ]))

  // src/data.ts:117-181
  const Level5: Level := Level(
    5, "冬日雪山", Locked,
    [
      Character(501, "雪", "xuě", ["雪花", "下雪"]),
      Character(502, "霜", "shuāng", ["冰霜", "霜降"]),
      Character(503, "雾", "wù", ["大雾", "云雾"]),
      Character(504, "山", "shān", ["大山", "爬山"])
    ],
    Story("白白的世界", [
      Page("/images/L5_1.jpg", "天空飘下一朵小雪。"),
      Page("/images/L5_2.jpg", "地上结了薄薄的霜。"),
      Page("/images/L5_3.jpg", "树林里起了一层雾。"),
      Page("/images/L5_4.jpg", "藏住了那座高高山。")
    ]))

  // src/data.ts:182-246
  const Level6: Level := Level(
    6, "田野江边", Locked,
    [
      Character(601, "石", "shí", ["石头", "岩石"]),
      Character(602, "田", "tián", ["种田", "稻田"]),
      Character(603, "土", "tǔ", ["泥土", "土地"]),
      Character(604, "江", "jiāng", ["长江", "江水"])
    ],
    Story("快乐的农夫", [
      Page("/images/L6_1.jpg", "路边躺着大石头，圆圆像皮球。"),
      Page("/images/L6_2.jpg", "旁边一块大农田，苗儿绿油油。"),
      Page("/images/L6_3.jpg", "种子睡在泥土里，慢慢伸出头。"),
      Page("/images/L6_4.jpg", "你看前方大江水，哗哗向东流。")
    ]))

  // src/data.ts:247-311
  const Level7: Level := Level(
    7, "水的世界", Locked,
    [
      Character(701, "河", "hé", ["小河", "河马"]),
      Character(702, "湖", "hú", ["湖水", "西湖"]),
      Character(703, "海", "hǎi", ["大海", "海豚"]),
      Character(704, "水", "shuǐ", ["喝水", "口水"])
    ],
    Story("小水滴旅行", [
      Page("/images/L7_1.jpg", "弯弯曲曲是小河，唱着快乐歌。"),
      Page("/images/L7_2.jpg", "跑进平静的大湖，洗个香香澡。"),
      Page("/images/L7_3.jpg", "游向蓝色的大海，这里真热闹。"),
      Page("/images/L7_4.jpg", "它们都是小水滴，到处飘呀飘。")
    ]))

  // src/data.ts:312-376
  const Level8: Level := Level(
    8, "五官小手", Locked,
    [
      Character(801, "口", "kǒu", ["口水", "大口"]),
      Character(802, "耳", "ěr", ["耳朵", "木耳"]),
      Character(803, "目", "mù", ["目光", "注目"]),
      Character(804, "手", "shǒu", ["小手", "拍手"])
    ],
    Story("乖乖宝贝", [
      Page("/images/L8_1.jpg", "张开大口吃西瓜。"),
      Page("/images/L8_2.jpg", "竖起耳朵听青蛙。"),
      Page("/images/L8_3.jpg", "目光亮亮找妈妈。"),
      Page("/images/L8_4.jpg", "拍拍小手笑哈哈。")
    ]))

  // src/data.ts:377-441
  const Level9: Level := Level(
    9, "身体奥秘", Locked,
    [
      Character(901, "足", "zú", ["足球", "手足"]),
      Character(902, "头", "tóu", ["头发", "大头"]),
      Character(903, "发", "fà", ["长发", "理发"]),
      Character(904, "牙", "yá", ["牙齿", "门牙"])
    ],
    Story("我要长高", [
      Page("/images/L9_1.jpg", "踢踢足球有力气。"),
      Page("/images/L9_2.jpg", "抬起头来笑嘻嘻。"),
      Page("/images/L9_3.jpg", "黑色头发真整齐。"),
      Page("/images/L9_4.jpg", "保护牙齿要牢记。")
    ]))

  // src/data.ts:442-506
  const Level10: Level := Level(
    10, "可爱的脸", Locked,
    [
      Character(1001, "舌", "shé", ["舌头", "学舌"]),
      Character(1002, "眉", "méi", ["眉毛", "皱眉"]),
      Character(1003, "鼻", "bí", ["鼻子", "鼻孔"]),
      Character(1004, "唇", "chún", ["嘴唇", "红唇"])
    ],
    Story("表情包", [
      Page("/images/L10_1.jpg", "伸出舌头舔冰棒。"),
      Page("/images/L10_2.jpg", "弯弯眉毛像月亮。"),
      Page("/images/L10_3.jpg", "捏捏鼻子不要晃。"),
      Page("/images/L10_4.jpg", "动动嘴唇歌声唱。")
    ]))

  // src/data.ts:507-571
  const Level11: Level := Level(
    11, "快乐身心", Locked,
    [
      Character(1101, "脸", "liǎn", ["洗脸", "笑脸"]),
      Character(1102, "心", "xīn", ["开心", "爱心"]),
      Character(1103, "身", "shēn", ["身体", "转身"]),
      Character(1104, "走", "zǒu", ["走路", "走开"])
    ],
    Story("乖娃娃", [
      Page("/images/L11_1.jpg", "胖胖嘟嘟一张脸。"),
      Page("/images/L11_2.jpg", "每天都有好奇心。"),
      Page("/images/L11_3.jpg", "摇摇晃晃转过身。"),
      Page("/images/L11_4.jpg", "就像鸭子慢慢走。")
    ]))

  // src/data.ts:572-636
  const Level12: Level := Level(
    12, "跑跑跳跳", Locked,
    [
      Character(1201, "跑", "pǎo", ["跑步", "赛跑"]),
      Character(1202, "跳", "tiào", ["跳高", "跳绳"]),
      Character(1203, "飞", "fēi", ["飞机", "飞鸟"]),
      Character(1204, "站", "zhàn", ["站立", "车站"])
    ],
    Story("运动会", [
      Page("/images/L12_1.jpg", "穿上鞋子用力跑。"),
      Page("/images/L12_2.jpg", "跟着兔子蹦蹦跳。"),
      Page("/images/L12_3.jpg", "看着蝴蝶天上飞。"),
      Page("/images/L12_4.jpg", "听见铃声站直了。")
    ]))

  // src/data.ts:637-701
  const Level13: Level := Level(
    13, "亲密伙伴", Locked,
    [
      Character(1301, "你", "nǐ", ["你好", "你们"]),
      Character(1302, "我", "wǒ", ["我们", "自我"]),
      Character(1303, "他", "tā", ["他们", "他人"]),
      Character(1304, "她", "tā", ["她们", "她的"])
    ],
    Story("大家来玩", [
      Page("/images/L13_1.jpg", "伸出手来你好呀。"),
      Page("/images/L13_2.jpg", "我们一起玩过家家。"),
      Page("/images/L13_3.jpg", "他搭积木笑哈哈。"),
      Page("/images/L13_4.jpg", "她画一朵大红花。")
    ]))

  // src/data.ts:702-766
  const Level14: Level := Level(
    14, "幸福一家", Locked,
    [
      Character(1401, "爸", "bà", ["爸爸", "老爸"]),
      Character(1402, "妈", "mā", ["妈妈", "姨妈"]),
      Character(1403, "爷", "yé", ["爷爷", "大爷"]),
      Character(1404, "奶", "nǎi", ["奶奶", "牛奶"])
    ],
    Story("爱的礼物", [
      Page("/images/L14_1.jpg", "爸爸力气真的大。"),
      Page("/images/L14_2.jpg", "妈妈带我回老家。"),
      Page("/images/L14_3.jpg", "爷爷胡子白花花。"),
      Page("/images/L14_4.jpg", "奶奶给我糖果拿。")
    ]))

  // src/data.ts:767-831
  const Level15: Level := Level(
    15, "兄弟姐妹", Locked,
    [
      Character(1501, "哥", "gē", ["哥哥", "大哥"]),
      Character(1502, "弟", "dì", ["弟弟", "小弟"]),
      Character(1503, "姐", "jiě", ["姐姐", "大姐"]),
      Character(1504, "妹", "mèi", ["妹妹", "姐妹"])
    ],
    Story("比比谁快", [
      Page("/images/L15_1.jpg", "哥哥前面跑得快。"),
      Page("/images/L15_2.jpg", "弟弟后面真可爱。"),
      Page("/images/L15_3.jpg", "姐姐跳绳多厉害。"),
      Page("/images/L15_4.jpg", "妹妹拍手笑起来。")
    ]))

  // src/data.ts:832-896
  const Level16: Level := Level(
    16, "亲戚朋友", Locked,
    [
      Character(1601, "叔", "shū", ["叔叔", "大叔"]),
      Character(1602, "姨", "yí", ["阿姨", "姨妈"]),
      Character(1603, "男", "nán", ["男生", "男孩"]),
      Character(1604, "女", "nǚ", ["女生", "女儿"])
    ],
    Story("社区客人", [
      Page("/images/L16_1.jpg", "警察叔叔本领大。"),
      Page("/images/L16_2.jpg", "邻居阿姨笑哈哈。"),
      Page("/images/L16_3.jpg", "这是勇敢小男娃。"),
      Page("/images/L16_4.jpg", "那是漂亮女娃娃。")
    ]))

  // src/data.ts:897-961
  const Level17: Level := Level(
    17, "快乐成长", Locked,
    [
      Character(1701, "老", "lǎo", ["老人", "老师"]),
      Character(1702, "幼", "yòu", ["幼儿", "幼小"]),
      Character(1703, "生", "shēng", ["学生", "生日"]),
      Character(1704, "师", "shī", ["老师", "医师"])
    ],
    Story("上学歌", [
      Page("/images/L17_1.jpg", "乌龟爷爷真的很老。"),
      Page("/images/L17_2.jpg", "幼儿园里起得早。"),
      Page("/images/L17_3.jpg", "快乐生活没烦恼。"),
      Page("/images/L17_4.jpg", "见到老师问声好。")
    ]))

  /** The `levels` array (src/data.ts:32-962), in array order. */
  const Levels: seq<Level> := [
    Level1, Level2, Level3, Level4, Level5, Level6, Level7, Level8, Level9,
    Level10, Level11, Level12, Level13, Level14, Level15, Level16, Level17
  ]

  /** Shape of the level at array position `position`: its id is the position
      plus one, it has four characters numbered `id * 100 + k` for k in 1..4,
      and its story has four pages. */
  predicate WellFormedLevel(l: Level, position: nat) {
    && l.id == position + 1
    && |l.characters| == 4
    && |l.story.pages| == 4
    && (forall k :: 0 <= k < |l.characters| ==> l.characters[k].id == l.id * 100 + k + 1)
  }

  /** Every level is well formed at its position: ids run 1, 2, ..., |ls|. */
  predicate WellFormed(ls: seq<Level>) {
    forall i :: 0 <= i < |ls| ==> WellFormedLevel(ls[i], i)
  }

  lemma LevelsWellFormed()
    ensures |Levels| == 17
    ensures WellFormed(Levels)
  {
    forall i | 0 <= i < |Levels|
      ensures WellFormedLevel(Levels[i], i)
    {
      if i == 0 { assert WellFormedLevel(Level1, 0); }
      else if i == 1 { assert WellFormedLevel(Level2, 1); }
      else if i == 2 { assert WellFormedLevel(Level3, 2); }
      else if i == 3 { assert WellFormedLevel(Level4, 3); }
      else if i == 4 { assert WellFormedLevel(Level5, 4); }
      else if i == 5 { assert WellFormedLevel(Level6, 5); }
      else if i == 6 { assert WellFormedLevel(Level7, 6); }
      else if i == 7 { assert WellFormedLevel(Level8, 7); }
      else if i == 8 { assert WellFormedLevel(Level9, 8); }
      else if i == 9 { assert WellFormedLevel(Level10, 9); }
      else if i == 10 { assert WellFormedLevel(Level11, 10); }
      else if i == 11 { assert WellFormedLevel(Level12, 11); }
      else if i == 12 { assert WellFormedLevel(Level13, 12); }
      else if i == 13 { assert WellFormedLevel(Level14, 13); }
      else if i == 14 { assert WellFormedLevel(Level15, 14); }
      else if i == 15 { assert WellFormedLevel(Level16, 15); }
      else { assert WellFormedLevel(Level17, 16); }
    }
  }

  /** Only the first level ships with status "unlocked"; every other one is
      "locked" (src/data.ts:37, 58, 79, ...). */
  lemma OnlyFirstLevelUnlocked()
    ensures forall i :: 0 <= i < |Levels| ==> (Levels[i].status == Unlocked <==> i == 0)
    ensures forall i :: 0 <= i < |Levels| ==> (Levels[i].status == Locked <==> i != 0)
  {
  }

  /** In a well-formed curriculum no two character slots share an id. */
  lemma CharacterIdsUnique(ls: seq<Level>)
    requires WellFormed(ls)
    ensures forall i, j, k, m ::
              0 <= i < |ls| && 0 <= j < |ls| &&
              0 <= k < |ls[i].characters| && 0 <= m < |ls[j].characters| &&
              ls[i].characters[k].id == ls[j].characters[m].id
              ==> i == j && k == m
  {
  }

  /** `levels.find(l => l.id === id)`: the first level with that id, if any. */
  function FindLevel(ls: seq<Level>, id: int): (r: Option<Level>)
    ensures r.Some? <==> exists i :: 0 <= i < |ls| && ls[i].id == id
    ensures r.Some? ==> r.value in ls && r.value.id == id
  {
    if ls == [] then None
    else if ls[0].id == id then Some(ls[0])
    else FindLevel(ls[1..], id)
  }

  /** In a well-formed curriculum a level id exists exactly when it lies in
      1..|ls|; this is what the "next level exists" test relies on. */
  lemma LevelExistsIff(ls: seq<Level>, id: int)
    requires WellFormed(ls)
    ensures FindLevel(ls, id).Some? <==> 1 <= id <= |ls|
  {
    if 1 <= id <= |ls| {
      assert WellFormedLevel(ls[id - 1], id - 1);
    }
  }

  /** An achievement badge (src/data.ts:964-989). */
  datatype Achievement = Achievement(id: int, threshold: nat, name: string, description: string)

  const Achievements: seq<Achievement> := [
    Achievement(1, 4, "冰雪皇冠", "学会前4个字"),
    Achievement(2, 8, "魔法雪花", "学会8个字"),
    Achievement(3, 12, "雪宝的好朋友", "学会12个字")
  ]

  /** Achievement thresholds strictly increase along the list. */
  lemma AchievementThresholdsIncrease()
    ensures forall i, j :: 0 <= i < j < |Achievements| ==> Achievements[i].threshold < Achievements[j].threshold
  {
  }

  /** `dailyCharacters` is an alias of the first level's character list (src/data.ts:992). */
  const DailyCharacters: seq<Character> := Levels[0].characters

  lemma DailyCharactersAreFirstLevel()
    ensures DailyCharacters == Level1.characters
    ensures |DailyCharacters| == 4 && DailyCharacters[0].id == 101
  {
  }
}
