/** The lines of TestEscaping1 and TestEscaping2 in
    pkg/influx/InfluxLineProtocolParser_test.go as written there, each line
    as the pieces it is written from (the measurement, the tag, the fields
    and the timestamp with the separators between them), and the pieces of
    each text around the characters its writer escapes. */
module LineProtocolTestLines {
  const Escaping1a: string :=
    "weat\\,he\\ r,loc\\\"ation\\,\\ =us\\ mid\\\"west temperature=82,temperature_string=\"hot, really \\\"hot\\\"!\" 1465839830100400200"
  const Escaping1b: string :=
    "\"weather\",\"location\"=\"us-midwest\" \"temperature\"=82 1465839830100400200"
  const Escaping2a: string :=
    "weat\\=her,location=us-midwest temperature_string=\"temp: hot\" 1465839830100400200"
  const Escaping2b: string :=
    "weat\\=her,loc\\=ation=us-mi\\=dwest temp\\=erature_string=\"temp\\=hot\" 1465839830100400201"

  lemma Escaping1aPart1()
    ensures "weat\\,he\\ r" + "," + "loc\\\"ation\\,\\ " ==
      "weat\\,he\\ r,loc\\\"ation\\,\\ "
  {
    assert "weat\\,he\\ r" + "," == "weat\\,he\\ r,";
    assert "weat\\,he\\ r," + "loc\\\"ation\\,\\ " == "weat\\,he\\ r,loc\\\"ation\\,\\ ";
  }

  lemma Escaping1aPart2()
    ensures "weat\\,he\\ r,loc\\\"ation\\,\\ " + "=" + "us\\ mid\\\"west" ==
      "weat\\,he\\ r,loc\\\"ation\\,\\ =us\\ mid\\\"west"
  {
    assert "weat\\,he\\ r,loc\\\"ation\\,\\ " + "=" == "weat\\,he\\ r,loc\\\"ation\\,\\ =";
    assert "weat\\,he\\ r,loc\\\"ation\\,\\ =" + "us\\ mid\\\"west" == "weat\\,he\\ r,loc\\\"ation\\,\\ =us\\ mid\\\"west";
  }

  lemma Escaping1aPart3()
    ensures "weat\\,he\\ r,loc\\\"ation\\,\\ =us\\ mid\\\"west" + " " + "temperature" ==
      "weat\\,he\\ r,loc\\\"ation\\,\\ =us\\ mid\\\"west temperature"
  {
    assert "weat\\,he\\ r,loc\\\"ation\\,\\ =us\\ mid\\\"west" + " " == "weat\\,he\\ r,loc\\\"ation\\,\\ =us\\ mid\\\"west ";
    assert "weat\\,he\\ r,loc\\\"ation\\,\\ =us\\ mid\\\"west " + "temperature" == "weat\\,he\\ r,loc\\\"ation\\,\\ =us\\ mid\\\"west temperature";
  }

  lemma Escaping1aPart4()
    ensures "weat\\,he\\ r,loc\\\"ation\\,\\ =us\\ mid\\\"west temperature" + "=" + "82" ==
      "weat\\,he\\ r,loc\\\"ation\\,\\ =us\\ mid\\\"west temperature=82"
  {
    assert "weat\\,he\\ r,loc\\\"ation\\,\\ =us\\ mid\\\"west temperature" + "=" == "weat\\,he\\ r,loc\\\"ation\\,\\ =us\\ mid\\\"west temperature=";
    assert "weat\\,he\\ r,loc\\\"ation\\,\\ =us\\ mid\\\"west temperature=" + "82" == "weat\\,he\\ r,loc\\\"ation\\,\\ =us\\ mid\\\"west temperature=82";
  }

  lemma Escaping1aPart5()
    ensures "weat\\,he\\ r,loc\\\"ation\\,\\ =us\\ mid\\\"west temperature=82" + "," + "temperature_string" ==
      "weat\\,he\\ r,loc\\\"ation\\,\\ =us\\ mid\\\"west temperature=82,temperature_string"
  {
    assert "weat\\,he\\ r,loc\\\"ation\\,\\ =us\\ mid\\\"west temperature=82" + "," == "weat\\,he\\ r,loc\\\"ation\\,\\ =us\\ mid\\\"west temperature=82,";
    assert "weat\\,he\\ r,loc\\\"ation\\,\\ =us\\ mid\\\"west temperature=82," + "temperature_string" == "weat\\,he\\ r,loc\\\"ation\\,\\ =us\\ mid\\\"west temperature=82,temperature_string";
  }

  lemma Escaping1aPart6()
    ensures "weat\\,he\\ r,loc\\\"ation\\,\\ =us\\ mid\\\"west temperature=82,temperature_string" + "=" + "\"" ==
      "weat\\,he\\ r,loc\\\"ation\\,\\ =us\\ mid\\\"west temperature=82,temperature_string=\""
  {
    assert "weat\\,he\\ r,loc\\\"ation\\,\\ =us\\ mid\\\"west temperature=82,temperature_string" + "=" == "weat\\,he\\ r,loc\\\"ation\\,\\ =us\\ mid\\\"west temperature=82,temperature_string=";
    assert "weat\\,he\\ r,loc\\\"ation\\,\\ =us\\ mid\\\"west temperature=82,temperature_string=" + "\"" == "weat\\,he\\ r,loc\\\"ation\\,\\ =us\\ mid\\\"west temperature=82,temperature_string=\"";
  }

  lemma Escaping1aPart7()
    ensures "weat\\,he\\ r,loc\\\"ation\\,\\ =us\\ mid\\\"west temperature=82,temperature_string=\"" + "hot, really \\\"hot\\\"!" + "\"" ==
      "weat\\,he\\ r,loc\\\"ation\\,\\ =us\\ mid\\\"west temperature=82,temperature_string=\"hot, really \\\"hot\\\"!\""
  {
    assert "weat\\,he\\ r,loc\\\"ation\\,\\ =us\\ mid\\\"west temperature=82,temperature_string=\"" + "hot, really \\\"hot\\\"!" == "weat\\,he\\ r,loc\\\"ation\\,\\ =us\\ mid\\\"west temperature=82,temperature_string=\"hot, really \\\"hot\\\"!";
    assert "weat\\,he\\ r,loc\\\"ation\\,\\ =us\\ mid\\\"west temperature=82,temperature_string=\"hot, really \\\"hot\\\"!" + "\"" == "weat\\,he\\ r,loc\\\"ation\\,\\ =us\\ mid\\\"west temperature=82,temperature_string=\"hot, really \\\"hot\\\"!\"";
  }

  lemma Escaping1aPart8()
    ensures "weat\\,he\\ r,loc\\\"ation\\,\\ =us\\ mid\\\"west temperature=82,temperature_string=\"hot, really \\\"hot\\\"!\"" + " " ==
      "weat\\,he\\ r,loc\\\"ation\\,\\ =us\\ mid\\\"west temperature=82,temperature_string=\"hot, really \\\"hot\\\"!\" "
  {
  }

  lemma Escaping1aPart9()
    ensures "weat\\,he\\ r,loc\\\"ation\\,\\ =us\\ mid\\\"west temperature=82,temperature_string=\"hot, really \\\"hot\\\"!\" " + "1465839830100400200" ==
      "weat\\,he\\ r,loc\\\"ation\\,\\ =us\\ mid\\\"west temperature=82,temperature_string=\"hot, really \\\"hot\\\"!\" 1465839830100400200"
  {
  }

  /** Escaping1a as the pieces it is written from. */
  lemma Escaping1aPieces()
    ensures Escaping1a ==
      "weat\\,he\\ r" + "," + "loc\\\"ation\\,\\ " + "=" + "us\\ mid\\\"west" + " " + "temperature" + "=" + "82" + "," + "temperature_string" + "=" + "\"" + "hot, really \\\"hot\\\"!" + "\"" + " " + "1465839830100400200"
  {
    Escaping1aPart1();
    Escaping1aPart2();
    Escaping1aPart3();
    Escaping1aPart4();
    Escaping1aPart5();
    Escaping1aPart6();
    Escaping1aPart7();
    Escaping1aPart8();
    Escaping1aPart9();
  }

  lemma Escaping1bPart1()
    ensures "\"weather\"" + "," + "\"location\"" ==
      "\"weather\",\"location\""
  {
    assert "\"weather\"" + "," == "\"weather\",";
    assert "\"weather\"," + "\"location\"" == "\"weather\",\"location\"";
  }

  lemma Escaping1bPart2()
    ensures "\"weather\",\"location\"" + "=" + "\"us-midwest\"" ==
      "\"weather\",\"location\"=\"us-midwest\""
  {
    assert "\"weather\",\"location\"" + "=" == "\"weather\",\"location\"=";
    assert "\"weather\",\"location\"=" + "\"us-midwest\"" == "\"weather\",\"location\"=\"us-midwest\"";
  }

  lemma Escaping1bPart3()
    ensures "\"weather\",\"location\"=\"us-midwest\"" + " " + "\"temperature\"" ==
      "\"weather\",\"location\"=\"us-midwest\" \"temperature\""
  {
    assert "\"weather\",\"location\"=\"us-midwest\"" + " " == "\"weather\",\"location\"=\"us-midwest\" ";
    assert "\"weather\",\"location\"=\"us-midwest\" " + "\"temperature\"" == "\"weather\",\"location\"=\"us-midwest\" \"temperature\"";
  }

  lemma Escaping1bPart4()
    ensures "\"weather\",\"location\"=\"us-midwest\" \"temperature\"" + "=" + "82" ==
      "\"weather\",\"location\"=\"us-midwest\" \"temperature\"=82"
  {
    assert "\"weather\",\"location\"=\"us-midwest\" \"temperature\"" + "=" == "\"weather\",\"location\"=\"us-midwest\" \"temperature\"=";
    assert "\"weather\",\"location\"=\"us-midwest\" \"temperature\"=" + "82" == "\"weather\",\"location\"=\"us-midwest\" \"temperature\"=82";
  }

  lemma Escaping1bPart5()
    ensures "\"weather\",\"location\"=\"us-midwest\" \"temperature\"=82" + " " + "1465839830100400200" ==
      "\"weather\",\"location\"=\"us-midwest\" \"temperature\"=82 1465839830100400200"
  {
    assert "\"weather\",\"location\"=\"us-midwest\" \"temperature\"=82" + " " == "\"weather\",\"location\"=\"us-midwest\" \"temperature\"=82 ";
    assert "\"weather\",\"location\"=\"us-midwest\" \"temperature\"=82 " + "1465839830100400200" == "\"weather\",\"location\"=\"us-midwest\" \"temperature\"=82 1465839830100400200";
  }

  /** Escaping1b as the pieces it is written from. */
  lemma Escaping1bPieces()
    ensures Escaping1b ==
      "\"weather\"" + "," + "\"location\"" + "=" + "\"us-midwest\"" + " " + "\"temperature\"" + "=" + "82" + " " + "1465839830100400200"
  {
    Escaping1bPart1();
    Escaping1bPart2();
    Escaping1bPart3();
    Escaping1bPart4();
    Escaping1bPart5();
  }

  lemma Escaping2aPart1()
    ensures "weat\\=her" + "," + "location" ==
      "weat\\=her,location"
  {
    assert "weat\\=her" + "," == "weat\\=her,";
    assert "weat\\=her," + "location" == "weat\\=her,location";
  }

  lemma Escaping2aPart2()
    ensures "weat\\=her,location" + "=" + "us-midwest" ==
      "weat\\=her,location=us-midwest"
  {
    assert "weat\\=her,location" + "=" == "weat\\=her,location=";
    assert "weat\\=her,location=" + "us-midwest" == "weat\\=her,location=us-midwest";
  }

  lemma Escaping2aPart3()
    ensures "weat\\=her,location=us-midwest" + " " + "temperature_string" ==
      "weat\\=her,location=us-midwest temperature_string"
  {
    assert "weat\\=her,location=us-midwest" + " " == "weat\\=her,location=us-midwest ";
    assert "weat\\=her,location=us-midwest " + "temperature_string" == "weat\\=her,location=us-midwest temperature_string";
  }

  lemma Escaping2aPart4()
    ensures "weat\\=her,location=us-midwest temperature_string" + "=" + "\"" ==
      "weat\\=her,location=us-midwest temperature_string=\""
  {
    assert "weat\\=her,location=us-midwest temperature_string" + "=" == "weat\\=her,location=us-midwest temperature_string=";
    assert "weat\\=her,location=us-midwest temperature_string=" + "\"" == "weat\\=her,location=us-midwest temperature_string=\"";
  }

  lemma Escaping2aPart5()
    ensures "weat\\=her,location=us-midwest temperature_string=\"" + "temp: hot" + "\"" ==
      "weat\\=her,location=us-midwest temperature_string=\"temp: hot\""
  {
    assert "weat\\=her,location=us-midwest temperature_string=\"" + "temp: hot" == "weat\\=her,location=us-midwest temperature_string=\"temp: hot";
    assert "weat\\=her,location=us-midwest temperature_string=\"temp: hot" + "\"" == "weat\\=her,location=us-midwest temperature_string=\"temp: hot\"";
  }

  lemma Escaping2aPart6()
    ensures "weat\\=her,location=us-midwest temperature_string=\"temp: hot\"" + " " + "1465839830100400200" ==
      "weat\\=her,location=us-midwest temperature_string=\"temp: hot\" 1465839830100400200"
  {
    assert "weat\\=her,location=us-midwest temperature_string=\"temp: hot\"" + " " == "weat\\=her,location=us-midwest temperature_string=\"temp: hot\" ";
    assert "weat\\=her,location=us-midwest temperature_string=\"temp: hot\" " + "1465839830100400200" == "weat\\=her,location=us-midwest temperature_string=\"temp: hot\" 1465839830100400200";
  }

  /** Escaping2a as the pieces it is written from. */
  lemma Escaping2aPieces()
    ensures Escaping2a ==
      "weat\\=her" + "," + "location" + "=" + "us-midwest" + " " + "temperature_string" + "=" + "\"" + "temp: hot" + "\"" + " " + "1465839830100400200"
  {
    Escaping2aPart1();
    Escaping2aPart2();
    Escaping2aPart3();
    Escaping2aPart4();
    Escaping2aPart5();
    Escaping2aPart6();
  }

  lemma Escaping2bPart1()
    ensures "weat\\=her" + "," + "loc\\=ation" ==
      "weat\\=her,loc\\=ation"
  {
    assert "weat\\=her" + "," == "weat\\=her,";
    assert "weat\\=her," + "loc\\=ation" == "weat\\=her,loc\\=ation";
  }

  lemma Escaping2bPart2()
    ensures "weat\\=her,loc\\=ation" + "=" + "us-mi\\=dwest" ==
      "weat\\=her,loc\\=ation=us-mi\\=dwest"
  {
    assert "weat\\=her,loc\\=ation" + "=" == "weat\\=her,loc\\=ation=";
    assert "weat\\=her,loc\\=ation=" + "us-mi\\=dwest" == "weat\\=her,loc\\=ation=us-mi\\=dwest";
  }

  lemma Escaping2bPart3()
    ensures "weat\\=her,loc\\=ation=us-mi\\=dwest" + " " + "temp\\=erature_string" ==
      "weat\\=her,loc\\=ation=us-mi\\=dwest temp\\=erature_string"
  {
    assert "weat\\=her,loc\\=ation=us-mi\\=dwest" + " " == "weat\\=her,loc\\=ation=us-mi\\=dwest ";
    assert "weat\\=her,loc\\=ation=us-mi\\=dwest " + "temp\\=erature_string" == "weat\\=her,loc\\=ation=us-mi\\=dwest temp\\=erature_string";
  }

  lemma Escaping2bPart4()
    ensures "weat\\=her,loc\\=ation=us-mi\\=dwest temp\\=erature_string" + "=" + "\"" ==
      "weat\\=her,loc\\=ation=us-mi\\=dwest temp\\=erature_string=\""
  {
    assert "weat\\=her,loc\\=ation=us-mi\\=dwest temp\\=erature_string" + "=" == "weat\\=her,loc\\=ation=us-mi\\=dwest temp\\=erature_string=";
    assert "weat\\=her,loc\\=ation=us-mi\\=dwest temp\\=erature_string=" + "\"" == "weat\\=her,loc\\=ation=us-mi\\=dwest temp\\=erature_string=\"";
  }

  lemma Escaping2bPart5()
    ensures "weat\\=her,loc\\=ation=us-mi\\=dwest temp\\=erature_string=\"" + "temp\\=hot" + "\"" ==
      "weat\\=her,loc\\=ation=us-mi\\=dwest temp\\=erature_string=\"temp\\=hot\""
  {
    assert "weat\\=her,loc\\=ation=us-mi\\=dwest temp\\=erature_string=\"" + "temp\\=hot" == "weat\\=her,loc\\=ation=us-mi\\=dwest temp\\=erature_string=\"temp\\=hot";
    assert "weat\\=her,loc\\=ation=us-mi\\=dwest temp\\=erature_string=\"temp\\=hot" + "\"" == "weat\\=her,loc\\=ation=us-mi\\=dwest temp\\=erature_string=\"temp\\=hot\"";
  }

  lemma Escaping2bPart6()
    ensures "weat\\=her,loc\\=ation=us-mi\\=dwest temp\\=erature_string=\"temp\\=hot\"" + " " + "1465839830100400201" ==
      "weat\\=her,loc\\=ation=us-mi\\=dwest temp\\=erature_string=\"temp\\=hot\" 1465839830100400201"
  {
    assert "weat\\=her,loc\\=ation=us-mi\\=dwest temp\\=erature_string=\"temp\\=hot\"" + " " == "weat\\=her,loc\\=ation=us-mi\\=dwest temp\\=erature_string=\"temp\\=hot\" ";
    assert "weat\\=her,loc\\=ation=us-mi\\=dwest temp\\=erature_string=\"temp\\=hot\" " + "1465839830100400201" == "weat\\=her,loc\\=ation=us-mi\\=dwest temp\\=erature_string=\"temp\\=hot\" 1465839830100400201";
  }

  /** Escaping2b as the pieces it is written from. */
  lemma Escaping2bPieces()
    ensures Escaping2b ==
      "weat\\=her" + "," + "loc\\=ation" + "=" + "us-mi\\=dwest" + " " + "temp\\=erature_string" + "=" + "\"" + "temp\\=hot" + "\"" + " " + "1465839830100400201"
  {
    Escaping2bPart1();
    Escaping2bPart2();
    Escaping2bPart3();
    Escaping2bPart4();
    Escaping2bPart5();
    Escaping2bPart6();
  }

  /** The texts of the first line of TestEscaping1, cut at the characters
      the writer escapes. */
  lemma Escaping1aTexts()
    ensures "weat,he r" == "weat" + [','] + ("he" + [' '] + "r")
    ensures "weat\\,he\\ r" == "weat" + ['\\', ','] + ("he" + ['\\', ' '] + "r")
    ensures "loc\"ation, " == "loc" + ['"'] + ("ation" + [','] + ([] + [' '] + []))
    ensures "loc\\\"ation\\,\\ " == "loc" + ['\\', '"'] + ("ation" + ['\\', ','] + ([] + ['\\', ' '] + []))
    ensures "us mid\"west" == "us" + [' '] + ("mid" + ['"'] + "west")
    ensures "us\\ mid\\\"west" == "us" + ['\\', ' '] + ("mid" + ['\\', '"'] + "west")
    ensures "hot, really \"hot\"!" == "hot, really " + ['"'] + ("hot" + ['"'] + "!")
    ensures "hot, really \\\"hot\\\"!" == "hot, really " + ['\\', '"'] + ("hot" + ['\\', '"'] + "!")
  {
  }

  /** The texts of TestEscaping2, cut at their equals signs. */
  lemma Escaping2Texts()
    ensures "weat" + "=" + "her" == "weat=her"
    ensures "weat" + "\\=" + "her" == "weat\\=her"
    ensures "loc" + "=" + "ation" == "loc=ation"
    ensures "loc" + "\\=" + "ation" == "loc\\=ation"
    ensures "us-mi" + "=" + "dwest" == "us-mi=dwest"
    ensures "us-mi" + "\\=" + "dwest" == "us-mi\\=dwest"
    ensures "temp" + "=" + "erature_string" == "temp=erature_string"
    ensures "temp" + "\\=" + "erature_string" == "temp\\=erature_string"
    ensures "temp" + "=" + "hot" == "temp=hot"
    ensures "temp" + "\\=" + "hot" == "temp\\=hot"
  {
  }

  /** Pieces of the test texts without special characters. */
  lemma PlainPieces1()
    ensures ' ' !in "weat" && ',' !in "weat" && '=' !in "weat" && '"' !in "weat" && '\\' !in "weat"
    ensures ' ' !in "her" && ',' !in "her" && '=' !in "her" && '"' !in "her" && '\\' !in "her"
  {
  }

  lemma PlainPieces2()
    ensures ' ' !in "he" && ',' !in "he" && '=' !in "he" && '"' !in "he" && '\\' !in "he"
    ensures ' ' !in "r" && ',' !in "r" && '=' !in "r" && '"' !in "r" && '\\' !in "r"
  {
  }

  lemma PlainPieces3()
    ensures ' ' !in "loc" && ',' !in "loc" && '=' !in "loc" && '"' !in "loc" && '\\' !in "loc"
    ensures ' ' !in "ation" && ',' !in "ation" && '=' !in "ation" && '"' !in "ation" && '\\' !in "ation"
  {
  }

  lemma PlainPieces4()
    ensures ' ' !in "us" && ',' !in "us" && '=' !in "us" && '"' !in "us" && '\\' !in "us"
    ensures ' ' !in "mid" && ',' !in "mid" && '=' !in "mid" && '"' !in "mid" && '\\' !in "mid"
  {
  }

  lemma PlainPieces5()
    ensures ' ' !in "west" && ',' !in "west" && '=' !in "west" && '"' !in "west" && '\\' !in "west"
    ensures ' ' !in "location" && ',' !in "location" && '=' !in "location" && '"' !in "location" && '\\' !in "location"
  {
  }

  lemma PlainPieces6()
    ensures ' ' !in "temperature" && ',' !in "temperature" && '=' !in "temperature" && '"' !in "temperature" && '\\' !in "temperature"
  {
  }

  lemma PlainPieces7()
    ensures ' ' !in "temperature_string" && ',' !in "temperature_string" && '=' !in "temperature_string" && '"' !in "temperature_string" && '\\' !in "temperature_string"
  {
  }

  lemma PlainPieces8()
    ensures ' ' !in "us-midwest" && ',' !in "us-midwest" && '=' !in "us-midwest" && '"' !in "us-midwest" && '\\' !in "us-midwest"
    ensures ' ' !in "us-mi" && ',' !in "us-mi" && '=' !in "us-mi" && '"' !in "us-mi" && '\\' !in "us-mi"
  {
  }

  lemma PlainPieces9()
    ensures ' ' !in "dwest" && ',' !in "dwest" && '=' !in "dwest" && '"' !in "dwest" && '\\' !in "dwest"
    ensures ' ' !in "temp" && ',' !in "temp" && '=' !in "temp" && '"' !in "temp" && '\\' !in "temp"
  {
  }

  lemma PlainPieces10()
    ensures ' ' !in "erature_string" && ',' !in "erature_string" && '=' !in "erature_string" && '"' !in "erature_string" && '\\' !in "erature_string"
  {
  }

  lemma PlainPieces11()
    ensures ' ' !in "" && ',' !in "" && '=' !in "" && '"' !in "" && '\\' !in ""
  {
  }

  /** Pieces of the test strings without double quotes or equals signs. */
  lemma PlainStringPieces()
    ensures '"' !in "hot, really " && '=' !in "hot, really "
    ensures '"' !in "hot" && '=' !in "hot"
    ensures '"' !in "!" && '=' !in "!"
    ensures '"' !in "temp: hot" && '=' !in "temp: hot"
    ensures '"' !in "temp" && '=' !in "temp"
  {
  }

  /** The texts the test lines are written from hold no capital E, line
      break or backslash. */
  lemma TestTexts1()
    ensures 'E' !in "loc\"ation, " && '\n' !in "loc\"ation, " && '\\' !in "loc\"ation, "
  {
  }

  lemma TestTexts2()
    ensures 'E' !in "us mid\"west" && '\n' !in "us mid\"west" && '\\' !in "us mid\"west"
  {
  }

  lemma TestTexts3()
    ensures 'E' !in "temperature" && '\n' !in "temperature" && '\\' !in "temperature"
  {
  }

  lemma TestTexts4()
    ensures 'E' !in "temperature_string" && '\n' !in "temperature_string" && '\\' !in "temperature_string"
  {
  }

  lemma TestTexts5()
    ensures 'E' !in "hot, really \"hot\"!" && '\n' !in "hot, really \"hot\"!" && '\\' !in "hot, really \"hot\"!"
  {
  }

  lemma TestTexts6()
    ensures 'E' !in "weat,he r" && '\n' !in "weat,he r" && '\\' !in "weat,he r"
    ensures 'E' !in "\"weather\"" && '\n' !in "\"weather\"" && '\\' !in "\"weather\""
  {
  }

  lemma TestTexts7()
    ensures 'E' !in "\"us-midwest\"" && '\n' !in "\"us-midwest\"" && '\\' !in "\"us-midwest\""
  {
  }

  lemma TestTexts8()
    ensures 'E' !in "\"temperature\"" && '\n' !in "\"temperature\"" && '\\' !in "\"temperature\""
  {
  }

  lemma TestTexts9()
    ensures 'E' !in "\"location\"" && '\n' !in "\"location\"" && '\\' !in "\"location\""
    ensures 'E' !in "82" && '\n' !in "82" && '\\' !in "82"
  {
  }

  lemma TestTexts10()
    ensures 'E' !in "1465839830100400200" && '\n' !in "1465839830100400200" && '\\' !in "1465839830100400200"
  {
  }

  lemma TestTexts11()
    ensures 'E' !in "weat=her" && '\n' !in "weat=her" && '\\' !in "weat=her"
    ensures 'E' !in "location" && '\n' !in "location" && '\\' !in "location"
  {
  }

  lemma TestTexts12()
    ensures 'E' !in "us-midwest" && '\n' !in "us-midwest" && '\\' !in "us-midwest"
    ensures 'E' !in "temp: hot" && '\n' !in "temp: hot" && '\\' !in "temp: hot"
  {
  }

  lemma TestTexts13()
    ensures 'E' !in "us-mi=dwest" && '\n' !in "us-mi=dwest" && '\\' !in "us-mi=dwest"
  {
  }

  lemma TestTexts14()
    ensures 'E' !in "temp=erature_string" && '\n' !in "temp=erature_string" && '\\' !in "temp=erature_string"
  {
  }

  lemma TestTexts15()
    ensures 'E' !in "loc=ation" && '\n' !in "loc=ation" && '\\' !in "loc=ation"
    ensures 'E' !in "temp=hot" && '\n' !in "temp=hot" && '\\' !in "temp=hot"
  {
  }

  lemma TestTexts16()
    ensures 'E' !in "1465839830100400201" && '\n' !in "1465839830100400201" && '\\' !in "1465839830100400201"
  {
  }

  /** The value and the timestamps hold no separator. */
  lemma TestValueTexts()
    ensures '"' !in "82" && '_' !in "82" && '=' !in "82" && ',' !in "82"
    ensures ' ' !in "1465839830100400200" && ' ' !in "1465839830100400201"
  {
  }

  /** The quoted names of the second line of TestEscaping1 hold no
      separator, and the field key starts with its double quote. */
  lemma Escaping1bNames()
    ensures ' ' !in "\"weather\"" && ',' !in "\"weather\""
    ensures ' ' !in "\"location\"" && ',' !in "\"location\"" && '=' !in "\"location\""
    ensures ' ' !in "\"us-midwest\"" && ',' !in "\"us-midwest\"" && '=' !in "\"us-midwest\""
    ensures ',' !in "\"temperature\"" && '=' !in "\"temperature\""
    ensures |"\"temperature\""| > 0 && "\"temperature\""[0] == '"'
  {
  }

  /** A string value of the test lines: its length, first character and
      the absence of digits. */
  lemma DigitlessString1()
    ensures |"hot, really \"hot\"!"| == 18 && "hot, really \"hot\"!"[0] == 'h'
  {
  }

  lemma DigitlessString1Part1()
    ensures '0' !in "hot, really \"hot\"!" && '1' !in "hot, really \"hot\"!" && '2' !in "hot, really \"hot\"!"
  {
  }

  lemma DigitlessString1Part2()
    ensures '3' !in "hot, really \"hot\"!" && '4' !in "hot, really \"hot\"!" && '5' !in "hot, really \"hot\"!"
  {
  }

  lemma DigitlessString1Part3()
    ensures '6' !in "hot, really \"hot\"!" && '7' !in "hot, really \"hot\"!"
  {
  }

  lemma DigitlessString1Part4()
    ensures '8' !in "hot, really \"hot\"!" && '9' !in "hot, really \"hot\"!"
  {
  }

  /** A string value of the test lines: its length, first character and
      the absence of digits. */
  lemma DigitlessTempHot()
    ensures |"temp: hot"| == 9 && "temp: hot"[0] == 't'
    ensures '0' !in "temp: hot" && '1' !in "temp: hot" && '2' !in "temp: hot" && '3' !in "temp: hot" && '4' !in "temp: hot"
    ensures '5' !in "temp: hot" && '6' !in "temp: hot" && '7' !in "temp: hot" && '8' !in "temp: hot" && '9' !in "temp: hot"
  {
  }

  // ---------------------------------------------------------------------
  // The lines as lines of an input: no carriage return, no line break,
  // and a first character that is not a comment's

  lemma Return1a()
    ensures '\r' !in Escaping1a
  {
    Escaping1aPieces();
  }

  lemma Break1a()
    ensures '\n' !in Escaping1a
  {
    Escaping1aPieces();
  }

  lemma First1a()
    ensures |Escaping1a| > 0 && Escaping1a[0] != '#'
  {
    Escaping1aPieces();
  }

  lemma Return1b()
    ensures '\r' !in Escaping1b
  {
    Escaping1bPieces();
  }

  lemma Break1b()
    ensures '\n' !in Escaping1b
  {
    Escaping1bPieces();
  }

  lemma First1b()
    ensures |Escaping1b| > 0 && Escaping1b[0] != '#'
  {
    Escaping1bPieces();
  }

  lemma Return2a()
    ensures '\r' !in Escaping2a
  {
    Escaping2aPieces();
  }

  lemma Break2a()
    ensures '\n' !in Escaping2a
  {
    Escaping2aPieces();
  }

  lemma First2a()
    ensures |Escaping2a| > 0 && Escaping2a[0] != '#'
  {
    Escaping2aPieces();
  }

  lemma Return2b()
    ensures '\r' !in Escaping2b
  {
    Escaping2bPieces();
  }

  lemma Break2b()
    ensures '\n' !in Escaping2b
  {
    Escaping2bPieces();
  }

  lemma First2b()
    ensures |Escaping2b| > 0 && Escaping2b[0] != '#'
  {
    Escaping2bPieces();
  }
}
